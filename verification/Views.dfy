/** Fault-free syncs and what their lister shows. A lister is an informer's cache:
    at each call it shows, of every Endpoints object, some version the object has had
    since the sync began, which need not be the one the sync itself wrote last. */
module Views {
  import opened KanaryTypes
  import opened EndpointDiff
  import opened ExpectedStatus
  import opened ConfigText
  import opened BackRefs
  import opened ApiStore
  import opened SyncProtocol
  import opened NonInterference
  import opened CalmSync

  // ---------- recent views ----------

  /** No Endpoints object carries a version the server has not given out. */
  ghost predicate Versioned(s: Store) {
    forall n :: n in s.endpoints ==> s.endpoints[n].version <= s.rev
  }

  /** The call is honoured, and its lister shows each object in a version from seen. */
  ghost predicate Shows(seen: set<Endpoints>, m: EndpointsCache, tick: Tick) {
    && tick.verdict.Honoured?
    && (tick.cache.Some? ==>
          && tick.cache.value.Keys == m.Keys
          && forall n :: n in m ==> tick.cache.value[n] in seen && tick.cache.value[n].name == n)
  }

  /** Every call of the run is honoured and sees versions that were in the store since
      it began; seen are those so far. */
  ghost predicate Recent(seen: set<Endpoints>, s: Store, t: Task, script: seq<Tick>)
    decreases Rank(t)
  {
    t.Done? || (
      && Shows(seen, s.endpoints, HeadTick(script))
      && var (s', t') := Step(s, t, HeadTick(script));
         Recent(seen + s'.endpoints.Values, s', t', TailTicks(script)))
  }

  /** A fault-free sync of k whose lister behaves as the script says. */
  ghost predicate RecentSync(printer: WeightPrinter, s: Store, k: string, script: seq<Tick>) {
    Recent(s.endpoints.Values, s, Start(printer, s, k), script)
  }

  function SyncSeeing(printer: WeightPrinter, s: Store, k: string, script: seq<Tick>): Store {
    Run(s, Start(printer, s, k), script).0
  }

  // ---------- what a sync may see ----------

  /** Of the versions seen, those of services that the first `next` entries are not
      for are current, and the others are older than the current ones. */
  ghost predicate Fits(seen: set<Endpoints>, m: EndpointsCache, es: seq<KanaryEndpointList>, next: nat) {
    forall e :: e in seen ==>
      e.name in m && (e == m[e.name] || (Among(es, next, e.name) && e.version < m[e.name].version))
  }

  /** es is what the sync is to record and to add references for. */
  predicate Aims(es: seq<KanaryEndpointList>, t: Task) {
    match t
    case WriteConfig(_, e, _) => e == es
    case ReadProxy(_, e) => e == es
    case RollProxy(_, e, _) => e == es
    case RecordConfig(_, e) => e == es
    case RecordEndpoints(_, e) => e == es
    case AddRefs(ky, next) => ky.status.endpoints == es
    case _ => true
  }

  /** Before the references. */
  predicate Early(t: Task) {
    t.WriteConfig? || t.ReadProxy? || t.RollProxy? || t.RecordConfig? || t.RecordEndpoints?
  }

  /** The sync is to add the references of es, and has seen no more than it may have. */
  ghost predicate Viewed(es: seq<KanaryEndpointList>, seen: set<Endpoints>, s: Store, t: Task) {
    && Aims(es, t)
    && (Early(t) ==> Fits(seen, s.endpoints, es, 0))
    && (t.AddRefs? ==> Fits(seen, s.endpoints, es, t.next))
  }

  lemma FitsAgain(seen: set<Endpoints>, m: EndpointsCache, es: seq<KanaryEndpointList>, next: nat)
    requires EndpointsKeyed(m) && Fits(seen, m, es, next)
    ensures Fits(seen + m.Values, m, es, next)
  {
  }

  lemma FitsAfterPut(seen: set<Endpoints>, m: EndpointsCache, es: seq<KanaryEndpointList>, next: nat, ep: Endpoints)
    requires EndpointsKeyed(m) && Fits(seen, m, es, next) && next < |es| && ep.name == es[next].serviceName
    requires ep.name in m && m[ep.name].version < ep.version
    ensures Fits(seen + m[ep.name := ep].Values, m[ep.name := ep], es, next + 1)
  {
    var n := m[ep.name := ep];
    forall e | e in seen + n.Values
      ensures e.name in n && (e == n[e.name] || (Among(es, next + 1, e.name) && e.version < n[e.name].version))
    {
      AmongOneMore(es, next, e.name);
      if e in n.Values {
        var x :| x in n && n[x] == e;
        assert x == ep.name || m[x].name == x;
      }
    }
  }

  // ---------- a recent run is a calm run cut short ----------

  function CalmSteps(s: Store, t: Task, n: nat): (Store, Task)
    decreases n
  {
    if n == 0 || t.Done? then (s, t)
    else
      var (s', t') := Step(s, t, CALM);
      CalmSteps(s', t', n - 1)
  }

  lemma CalmStepsUnfold(s: Store, t: Task, n: nat)
    ensures n == 0 || t.Done? ==> CalmSteps(s, t, n) == (s, t)
    ensures n > 0 && !t.Done? ==>
              CalmSteps(s, t, n) == CalmSteps(Step(s, t, CALM).0, Step(s, t, CALM).1, n - 1)
  {
  }

  /** The next call is the addition of a reference to a service that has one already. */
  ghost predicate AtRepeat(es: seq<KanaryEndpointList>, t: Task) {
    t.AddRefs? && t.ky.status.endpoints == es && Repeats(es, t.next)
  }

  /** What AddRefs does to the Endpoints objects, at most. */
  lemma RefPut(s: Store, service: string, k: string)
    requires EndpointsKeyed(s.endpoints) && Versioned(s)
    ensures var u := AddKanaryRef(s, s.endpoints, service, k).store;
            || u == s
            || (&& service in s.endpoints && u.rev == s.rev + 1
                && var ep := u.endpoints[service];
                   && service in u.endpoints && ep.name == service && ep.version == u.rev
                   && u.endpoints == s.endpoints[service := ep])
  {
    hide AddRef;
  }

  lemma StepViewed(es: seq<KanaryEndpointList>, seen: set<Endpoints>, s: Store, t: Task)
    requires WellKeyed(s) && Versioned(s) && Viewed(es, seen, s, t) && !t.Done?
    ensures var (u, t') := Step(s, t, CALM);
            && WellKeyed(u) && Versioned(u) && s.rev <= u.rev
            && Viewed(es, seen + u.endpoints.Values, u, t')
  {
    StepKeepsKeyed(s, t, CALM);
    if t.AddRefs? {
      StepViewedRefs(es, seen, s, t);
    } else {
      StepViewedOther(es, seen, s, t);
    }
  }

  lemma ServedKeeps<T>(verdict: Verdict, s: Store, a: Answer<T>)
    requires a.store.endpoints == s.endpoints && s.rev <= a.store.rev
    ensures var u := Served(verdict, s, a).store; u.endpoints == s.endpoints && s.rev <= u.rev
  {
  }

  lemma ConfigCallsLeaveEndpoints(s: Store, t: Task, tick: Tick)
    requires t.WriteConfig? || t.ReadProxy? || t.RollProxy?
    ensures Step(s, t, tick).0.endpoints == s.endpoints && s.rev <= Step(s, t, tick).0.rev
  {
    hide Served, Rolled, NewConfigMap, Counted;
    var v := tick.verdict;
    match t
    case WriteConfig(ky, expected, config) =>
      ServedKeeps(v, s, CreateConfigMap(s, NewConfigMap(ky, config)));
      ServedKeeps(v, s, UpdateConfigMap(s, NewConfigMap(ky, config)));
    case ReadProxy(ky, expected) => ServedKeeps(v, s, GetDeployment(s, ky.status.destination.proxyName));
    case RollProxy(ky, expected, deployment) => ServedKeeps(v, s, UpdateDeployment(s, Rolled(deployment)));
  }

  lemma ObjectCallsLeaveEndpoints(s: Store, t: Task, tick: Tick)
    requires t.CreateProxy? || t.RemoveService? || t.PublishService?
    ensures Step(s, t, tick).0.endpoints == s.endpoints && s.rev <= Step(s, t, tick).0.rev
  {
    hide Served, NewDeployment, NewService;
    var v := tick.verdict;
    match t
    case CreateProxy(ky) => ServedKeeps(v, s, CreateDeployment(s, NewDeployment(ky)));
    case RemoveService(ky) => ServedKeeps(v, s, ApiStore.DeleteService(s, ky.status.destination.serviceName));
    case PublishService(ky) => ServedKeeps(v, s, CreateService(s, NewService(ky)));
  }

  lemma StatusCallsLeaveEndpoints(s: Store, t: Task, tick: Tick)
    requires t.RecordConfig? || t.RecordEndpoints? || t.RecordProxy? || t.RecordService?
    ensures Step(s, t, tick).0.endpoints == s.endpoints && s.rev <= Step(s, t, tick).0.rev
  {
    hide AfterProxy, RefsFrom;
  }

  lemma OtherCallsLeaveEndpoints(s: Store, t: Task, tick: Tick)
    requires !t.Done? && !t.AddRefs?
    ensures Step(s, t, tick).0.endpoints == s.endpoints && s.rev <= Step(s, t, tick).0.rev
  {
    hide *;
    if t.WriteConfig? || t.ReadProxy? || t.RollProxy? {
      ConfigCallsLeaveEndpoints(s, t, tick);
    } else if t.CreateProxy? || t.RemoveService? || t.PublishService? {
      ObjectCallsLeaveEndpoints(s, t, tick);
    } else {
      StatusCallsLeaveEndpoints(s, t, tick);
    }
  }

  /** The list is handed on from step to step. */
  lemma StepAims(es: seq<KanaryEndpointList>, s: Store, t: Task)
    requires !t.Done? && Aims(es, t)
    ensures Aims(es, Step(s, t, CALM).1)
    ensures !t.AddRefs? && Step(s, t, CALM).1.AddRefs? ==> Step(s, t, CALM).1.next == 0 && t.RecordEndpoints?
    ensures t.AddRefs? && Step(s, t, CALM).1.AddRefs? ==> Step(s, t, CALM).1.next == t.next + 1
  {
    hide Rolled, NewConfigMap, NewDeployment, NewService, Counted, AddKanaryRef;
  }

  lemma StepViewedOther(es: seq<KanaryEndpointList>, seen: set<Endpoints>, s: Store, t: Task)
    requires WellKeyed(s) && Versioned(s) && Viewed(es, seen, s, t) && !t.Done? && !t.AddRefs?
    ensures var (u, t') := Step(s, t, CALM);
            Versioned(u) && s.rev <= u.rev && Viewed(es, seen + u.endpoints.Values, u, t')
  {
    OtherCallsLeaveEndpoints(s, t, CALM);
    StepAims(es, s, t);
    if Early(t) {
      FitsAgain(seen, s.endpoints, es, 0);
    } else {
      StaysLate(s, t);
    }
    hide Fits, Step;
  }

  lemma StaysLate(s: Store, t: Task)
    requires !t.Done? && !Early(t)
    ensures !Early(Step(s, t, CALM).1) && (!t.AddRefs? ==> !Step(s, t, CALM).1.AddRefs?)
  {
    hide NewDeployment, NewService, AddKanaryRef, CreateDeployment, CreateService, UpdateKanary, ApiStore.DeleteService;
  }

  lemma StepViewedRefs(es: seq<KanaryEndpointList>, seen: set<Endpoints>, s: Store, t: Task)
    requires WellKeyed(s) && Versioned(s) && Viewed(es, seen, s, t) && t.AddRefs?
    ensures var (u, t') := Step(s, t, CALM);
            Versioned(u) && s.rev <= u.rev && Viewed(es, seen + u.endpoints.Values, u, t')
  {
    var (u, t') := Step(s, t, CALM);
    if t.next < |es| {
      var service := es[t.next].serviceName;
      RefPut(s, service, t.ky.name);
      hide Fits, AddKanaryRef;
      if t'.AddRefs? {
        assert u != s;
        FitsAfterPut(seen, s.endpoints, es, t.next, u.endpoints[service]);
      }
    }
  }

  /** With a recent view a call does what it does with the current one, unless it is
      for a service that has its reference: then it may conflict and end the sync. */
  lemma RecentStep(es: seq<KanaryEndpointList>, seen: set<Endpoints>, s: Store, t: Task, tick: Tick)
    requires WellKeyed(s) && Viewed(es, seen, s, t) && !t.Done? && Shows(seen, s.endpoints, tick)
    ensures Step(s, t, tick) == Step(s, t, CALM) || (AtRepeat(es, t) && Step(s, t, tick) == (s, Done(false)))
  {
    if t.AddRefs? && tick.cache.Some? && t.next < |es| {
      var view, service := tick.cache.value, es[t.next].serviceName;
      if service in view {
        hide AddRef;
        if view[service] != s.endpoints[service] {
          assert Among(es, t.next, service) && view[service].version < s.endpoints[service].version;
        }
      }
    } else {
      assert Step(s, t, tick) == Step(s, t, CALM) by {
        hide AddKanaryRef, Rolled, CreateConfigMap, UpdateConfigMap, UpdateKanary, CreateDeployment, UpdateDeployment;
      }
    }
  }

  lemma {:induction false} RecentIsCut(es: seq<KanaryEndpointList>, seen: set<Endpoints>, s: Store, t: Task,
                                       script: seq<Tick>) returns (n: nat)
    requires WellKeyed(s) && Versioned(s) && Viewed(es, seen, s, t) && Recent(seen, s, t, script)
    ensures var (u, t') := CalmSteps(s, t, n);
            var (r, err) := Run(s, t, script);
            && r == u && WellKeyed(u) && Versioned(u)
            && if t'.Done? then err == t'.err else !err && AtRepeat(es, t')
    decreases Rank(t)
  {
    hide Viewed, Versioned, WellKeyed, AtRepeat, Step, Shows;
    if t.Done? {
      n := 0;
    } else {
      RecentStep(es, seen, s, t, HeadTick(script));
      StepViewed(es, seen, s, t);
      var (s', t') := Step(s, t, HeadTick(script));
      if (s', t') == Step(s, t, CALM) {
        n := RecentIsCut(es, seen + s'.endpoints.Values, s', t', TailTicks(script));
        n := n + 1;
      } else {
        n := 0;
      }
    }
  }

  lemma {:induction false} CalmStepsThenRun(s: Store, t: Task, n: nat)
    ensures Run(s, t, []) == Run(CalmSteps(s, t, n).0, CalmSteps(s, t, n).1, [])
    decreases n
  {
    hide Step;
    if n == 0 || t.Done? {
    } else {
      CalmStepsThenRun(Step(s, t, CALM).0, Step(s, t, CALM).1, n - 1);
    }
  }

  lemma {:induction false} CalmStepsAim(es: seq<KanaryEndpointList>, s: Store, t: Task, n: nat)
    requires Aims(es, t)
    ensures Aims(es, CalmSteps(s, t, n).1)
    decreases n
  {
    if n == 0 || t.Done? {
    } else {
      StepAims(es, s, t);
      hide Step, Aims;
      CalmStepsAim(es, Step(s, t, CALM).0, Step(s, t, CALM).1, n - 1);
    }
  }

  // ---------- when the view does not matter ----------

  /** What the sync of k is going to record, if it writes its configuration. */
  function AimOf(printer: WeightPrinter, s: Store, k: string): seq<KanaryEndpointList> {
    var t := Start(printer, s, k);
    if t.WriteConfig? then t.expected else []
  }

  /** No service is named twice in what the sync is going to record. */
  ghost predicate NoRepeat(printer: WeightPrinter, s: Store, k: string) {
    DistinctServices(AimOf(printer, s, k))
  }

  lemma StartShape(printer: WeightPrinter, s: Store, k: string)
    ensures Start(printer, s, k).WriteConfig? || (!Early(Start(printer, s, k)) && !Start(printer, s, k).AddRefs?)
    ensures Aims(AimOf(printer, s, k), Start(printer, s, k))
  {
    hide ExpectedOf, Render, StatusCovers;
  }

  lemma StartViewed(printer: WeightPrinter, s: Store, k: string)
    requires WellKeyed(s)
    ensures Viewed(AimOf(printer, s, k), s.endpoints.Values, s, Start(printer, s, k))
  {
    StartShape(printer, s, k);
    hide Start, AimOf;
  }

  /** A recent sync comes as far as a calm one, or to a repeated service. */
  lemma RecentSyncIsCut(printer: WeightPrinter, s: Store, k: string, script: seq<Tick>) returns (n: nat)
    requires WellKeyed(s) && Versioned(s) && RecentSync(printer, s, k, script)
    ensures var (u, t') := CalmSteps(s, Start(printer, s, k), n);
            var (r, err) := Run(s, Start(printer, s, k), script);
            && r == u && WellKeyed(u) && Versioned(u)
            && if t'.Done? then err == t'.err else !err && AtRepeat(AimOf(printer, s, k), t')
  {
    StartViewed(printer, s, k);
    hide Start, AimOf, Run, CalmSteps, Viewed, WellKeyed, Versioned, Recent, AtRepeat;
    n := RecentIsCut(AimOf(printer, s, k), s.endpoints.Values, s, Start(printer, s, k), script);
  }

  lemma DoneRun(s: Store, t: Task)
    requires t.Done?
    ensures Run(s, t, []) == (s, t.err)
  {
  }

  lemma NeverAtRepeat(es: seq<KanaryEndpointList>, t: Task)
    requires DistinctServices(es)
    ensures !AtRepeat(es, t)
  {
    DistinctMeansNoRepeat(es);
  }

  /** When no service is named twice, a sync does the same on every recent view. */
  lemma ViewDoesNotMatter(printer: WeightPrinter, s: Store, k: string, script: seq<Tick>)
    requires WellKeyed(s) && Versioned(s) && RecentSync(printer, s, k, script) && NoRepeat(printer, s, k)
    ensures Run(s, Start(printer, s, k), script) == Run(s, Start(printer, s, k), [])
    ensures SyncSeeing(printer, s, k, script) == Sync(printer, s, k)
  {
    hide Start, Run, CalmSteps, WellKeyed, Versioned, RecentSync, AtRepeat, AimOf;
    var n := RecentSyncIsCut(printer, s, k, script);
    var (u, t') := CalmSteps(s, Start(printer, s, k), n);
    NeverAtRepeat(AimOf(printer, s, k), t');
    CalmStepsThenRun(s, Start(printer, s, k), n);
    DoneRun(u, t');
    SyncIsRun(printer, s, k);
  }

  lemma SyncIsRun(printer: WeightPrinter, s: Store, k: string)
    ensures Sync(printer, s, k) == Run(s, Start(printer, s, k), []).0
  {
  }

  /** A lister that shows the sync's own writes as soon as they are made. */
  ghost predicate UpToDate(script: seq<Tick>) {
    forall i :: 0 <= i < |script| ==> script[i].cache.None?
  }

  lemma UpToDateTail(script: seq<Tick>)
    requires UpToDate(script)
    ensures UpToDate(TailTicks(script)) && HeadTick(script).cache.None?
  {
  }

  lemma {:induction false} UpToDateRun(seen: set<Endpoints>, s: Store, t: Task, script: seq<Tick>)
    requires UpToDate(script) && Recent(seen, s, t, script)
    ensures Run(s, t, script) == Run(s, t, [])
    decreases Rank(t)
  {
    UpToDateTail(script);
    if t.Done? {
    } else {
      assert HeadTick(script) == CALM;
      var (s', t') := Step(s, t, CALM);
      hide Step, UpToDate;
      UpToDateRun(seen + s'.endpoints.Values, s', t', TailTicks(script));
    }
  }

  /** A fault-free sync that its view cannot stop: the view is up to date, or no service
      is named twice. */
  ghost predicate SeesThrough(printer: WeightPrinter, s: Store, k: string, script: seq<Tick>) {
    RecentSync(printer, s, k, script) && (UpToDate(script) || NoRepeat(printer, s, k))
  }

  lemma SeesThroughIsSync(printer: WeightPrinter, s: Store, k: string, script: seq<Tick>)
    requires WellKeyed(s) && Versioned(s) && SeesThrough(printer, s, k, script)
    ensures SyncSeeing(printer, s, k, script) == Sync(printer, s, k)
  {
    SyncIsRun(printer, s, k);
    if UpToDate(script) {
      hide Start, Run, UpToDate;
      UpToDateRun(s.endpoints.Values, s, Start(printer, s, k), script);
    } else {
      hide Start, Run, UpToDate;
      ViewDoesNotMatter(printer, s, k, script);
    }
  }

  // ---------- what a sync on any recent view leaves alone ----------

  lemma {:induction false} CalmStepsKeepOthers(k: string, ds: set<string>, s: Store, t: Task, n: nat)
    requires WellKeyed(s) && Current(k, ds, s, t)
    ensures var (u, t') := CalmSteps(s, t, n);
            && WellKeyed(u) && Current(k, ds, u, t') && OthersKept(k, ds, s, u)
            && (k in s.kanaries ==> k in u.kanaries && u.kanaries[k].spec == s.kanaries[k].spec)
    decreases n
  {
    assert t.Done? || k in s.kanaries;
    hide *;
    CalmStepsUnfold(s, t, n);
    if n == 0 || t.Done? {
      KeptReflexive(k, ds, s);
    } else {
      StepKeepsOthers(k, ds, s, t);
      StepKeepsKeyed(s, t, CALM);
      StepKeepsCurrent(k, ds, s, t);
      StepKeepsSpec(k, ds, s, t);
      var (s', t') := Step(s, t, CALM);
      CalmStepsKeepOthers(k, ds, s', t', n - 1);
      KeptTransitive(k, ds, s, s', CalmSteps(s', t', n - 1).0);
    }
  }

  lemma RecentSyncKeepsOthers(printer: WeightPrinter, s: Store, k: string, script: seq<Tick>, ds: set<string>)
    requires WellKeyed(s) && Versioned(s) && RecentSync(printer, s, k, script)
    requires k in s.kanaries ==> Within(s.kanaries[k], ds)
    ensures var u := SyncSeeing(printer, s, k, script);
            && WellKeyed(u) && Versioned(u) && OthersKept(k, ds, s, u)
            && (k in s.kanaries ==> k in u.kanaries && u.kanaries[k].spec == s.kanaries[k].spec)
  {
    StartIsCurrent(printer, s, k, ds);
    hide Start, Run, CalmSteps, WellKeyed, Versioned, RecentSync, AtRepeat, OthersKept, Current, Within;
    var n := RecentSyncIsCut(printer, s, k, script);
    CalmStepsKeepOthers(k, ds, s, Start(printer, s, k), n);
  }

  lemma SeesThroughKeepsKeyed(printer: WeightPrinter, s: Store, k: string, script: seq<Tick>)
    requires WellKeyed(s) && Versioned(s) && OwnProxies(s) && SeesThrough(printer, s, k, script)
    ensures var u := SyncSeeing(printer, s, k, script);
            u == Sync(printer, s, k) && WellKeyed(u) && Versioned(u)
  {
    if k in s.kanaries {
      OwnDestinations(s, k);
    }
    hide SyncSeeing, RecentSync, UpToDate, NoRepeat, WellKeyed, Versioned, OwnProxies, Destinations;
    SeesThroughIsSync(printer, s, k, script);
    RecentSyncKeepsOthers(printer, s, k, script, Destinations(s, k));
  }

  /** Whatever views they see, as long as these cannot stop them, syncs of two Kanaries
      commute. */
  lemma SyncsCommuteOnAnyView(printer: WeightPrinter, s: Store, a: string, b: string, first: seq<Tick>, next: seq<Tick>,
                              other: seq<Tick>, later: seq<Tick>)
    requires WellKeyed(s) && Versioned(s) && OwnProxies(s)
    requires a != b ==> Destinations(s, a) !! Destinations(s, b)
    requires SeesThrough(printer, s, a, first) && SeesThrough(printer, SyncSeeing(printer, s, a, first), b, next)
    requires SeesThrough(printer, s, b, other) && SeesThrough(printer, SyncSeeing(printer, s, b, other), a, later)
    ensures Equivalent(SyncSeeing(printer, SyncSeeing(printer, s, a, first), b, next),
                       SyncSeeing(printer, SyncSeeing(printer, s, b, other), a, later))
  {
    hide *;
    SeesThroughKeepsKeyed(printer, s, a, first);
    SeesThroughKeepsKeyed(printer, s, b, other);
    SeesThroughIsSync(printer, SyncSeeing(printer, s, a, first), b, next);
    SeesThroughIsSync(printer, SyncSeeing(printer, s, b, other), a, later);
    SyncsCommute(printer, s, a, b);
  }

  // ---------- where it ends ----------

  lemma {:induction false} CalmStepsOnTrack(reserved: Reservations, printer: WeightPrinter, s: Store, k: string,
                                            exp: seq<KanaryEndpointList>, t: Task, watched: bool, n: nat)
    requires OnTrack(reserved, printer, s, k, exp, t, watched)
    ensures OnTrack(reserved, printer, CalmSteps(s, t, n).0, k, exp, CalmSteps(s, t, n).1, watched)
    decreases n
  {
    hide *;
    CalmStepsUnfold(s, t, n);
    if n == 0 || t.Done? {
    } else {
      StepOnTrack(reserved, printer, s, k, exp, t, watched);
      CalmStepsOnTrack(reserved, printer, Step(s, t, CALM).0, k, exp, Step(s, t, CALM).1, watched, n - 1);
    }
  }

  /** A sync of k has stopped at entry next, whose service an earlier entry names. The
      configuration is written, rolled if there is a proxy, and recorded with its
      endpoints; the services of the entries before list k; the rest is as before. */
  ghost predicate Paused(reserved: Reservations, printer: WeightPrinter, s: Store, k: string,
                         exp: seq<KanaryEndpointList>, next: nat, watched: bool) {
    && k in s.kanaries && Repeats(exp, next)
    && OnTrack(reserved, printer, s, k, exp, AddRefs(s.kanaries[k], next), watched)
  }

  /** From a boundary, on any recent view: a fault-free sync that can build its
      expectation ends with everything recorded, published and up to date, or it
      stops at a service that its expectation names twice. */
  lemma OutcomeOnAnyView(reserved: Reservations, printer: WeightPrinter, s: Store, k: string, script: seq<Tick>,
                         watched: bool)
    requires WellKeyed(s) && NoneMalformed(s.endpoints) && Versioned(s) && Settled(reserved, printer, s, k, watched)
    requires RecentSync(printer, s, k, script)
    ensures var (u, err) := Run(s, Start(printer, s, k), script);
            && !err && WellKeyed(u) && NoneMalformed(u.endpoints) && Versioned(u)
            && k in u.kanaries && u.kanaries[k].spec == s.kanaries[k].spec
            && match ExpectedOf(s.kanaries[k].spec.routes, s.endpoints)
               case None => u == s
               case Some(exp) =>
                 || Ended(reserved, printer, u, k, exp, watched)
                 || (!NoRepeat(printer, s, k) && exists next :: Paused(reserved, printer, u, k, exp, next, watched))
  {
    var t := Start(printer, s, k);
    SettledWithin(reserved, printer, s, k, watched);
    RecentSyncKeepsOthers(printer, s, k, script, Destinations(s, k));
    var n := RecentSyncIsCut(printer, s, k, script);
    if ExpectedOf(s.kanaries[k].spec.routes, s.endpoints).Some? {
      var exp := ExpectedOf(s.kanaries[k].spec.routes, s.endpoints).value;
      StartOnTrack(reserved, printer, s, k, watched);
      CalmStepsOnTrack(reserved, printer, s, k, exp, t, watched, n);
      var (u, t') := CalmSteps(s, t, n);
      hide Start, Run, CalmSteps, Settled, Stage, RecentSync, Destinations, ExpectedOf;
      if !t'.Done? {
        if NoRepeat(printer, s, k) {
          NeverAtRepeat(AimOf(printer, s, k), t');
        }
        assert t' == AddRefs(u.kanaries[k], t'.next);
        PausedAt(reserved, printer, u, k, exp, AimOf(printer, s, k), t', watched);
      }
    } else {
      NothingToDo(printer, s, k, script);
    }
  }

  lemma PausedAt(reserved: Reservations, printer: WeightPrinter, u: Store, k: string, exp: seq<KanaryEndpointList>,
                 aim: seq<KanaryEndpointList>, t: Task, watched: bool)
    requires OnTrack(reserved, printer, u, k, exp, t, watched) && AtRepeat(aim, t)
    ensures k in u.kanaries && t == AddRefs(u.kanaries[k], t.next) && Paused(reserved, printer, u, k, exp, t.next, watched)
  {
  }

  lemma NothingToDo(printer: WeightPrinter, s: Store, k: string, script: seq<Tick>)
    requires k in s.kanaries ==> ExpectedOf(s.kanaries[k].spec.routes, s.endpoints).None?
    ensures Run(s, Start(printer, s, k), script) == (s, false)
  {
  }

  // ---------- the sync after ----------

  lemma PausedParts(reserved: Reservations, printer: WeightPrinter, s: Store, k: string, exp: seq<KanaryEndpointList>,
                    next: nat, watched: bool)
    requires Paused(reserved, printer, s, k, exp, next, watched)
    ensures PausedIn(reserved, printer, s, k, exp, next) && StatusCovers(exp, exp)
  {
    CoversReflexive(exp);
    hide RestAgrees, ExpectedOf, StatusCovers, ConfigHolds, Repeats;
  }

  /** What a pause leaves, part by part. */
  ghost predicate PausedIn(reserved: Reservations, printer: WeightPrinter, s: Store, k: string,
                           exp: seq<KanaryEndpointList>, next: nat) {
    && WellKeyed(s) && NoneMalformed(s.endpoints) && k in s.kanaries && exp != [] && Repeats(exp, next)
    && var ky := s.kanaries[k];
       && ky.status.endpoints == exp && SpecAllowed(reserved, k, ky.spec)
       && ky.status.destination.configName == ConfigMapName(k)
       && ExpectedOf(ky.spec.routes, s.endpoints) == Some(exp)
       && ConfigHolds(printer, s.configMaps, s.configWrites, s.rolls, k, exp, 0)
       && RestAgrees(reserved, s.deployments, s.rolls, s.services, k, ky)
       && Referenced(s.endpoints, k, exp, next)
  }

  lemma PausedFromParts(reserved: Reservations, printer: WeightPrinter, s: Store, k: string, exp: seq<KanaryEndpointList>,
                        next: nat, watched: bool)
    requires PausedIn(reserved, printer, s, k, exp, next)
    ensures Paused(reserved, printer, s, k, exp, next, watched)
  {
    hide RestAgrees, ExpectedOf, StatusCovers, ConfigHolds, Referenced, WellKeyed, NoneMalformed, SpecAllowed;
  }

  /** The configuration is recorded and covers exp, and the rest is as the status says. */
  ghost predicate Covered(reserved: Reservations, printer: WeightPrinter, s: Store, k: string,
                          exp: seq<KanaryEndpointList>) {
    && WellKeyed(s) && NoneMalformed(s.endpoints) && k in s.kanaries && exp != []
    && var ky := s.kanaries[k];
       && SpecAllowed(reserved, k, ky.spec) && ExpectedOf(ky.spec.routes, s.endpoints) == Some(exp)
       && ConfigDone(printer, s, k, exp, ky, false)
       && RestAgrees(reserved, s.deployments, s.rolls, s.services, k, ky)
  }

  lemma PausedIsCovered(reserved: Reservations, printer: WeightPrinter, s: Store, k: string,
                        exp: seq<KanaryEndpointList>, next: nat)
    requires PausedIn(reserved, printer, s, k, exp, next) && StatusCovers(exp, exp)
    ensures Covered(reserved, printer, s, k, exp)
  {
    hide ExpectedOf, StatusCovers, ConfigHolds, RestAgrees, Referenced, WellKeyed, NoneMalformed, Repeats, SpecAllowed,
         ConfigMapName;
  }

  /** With the expectation covered, a sync goes on behind the configuration. */
  lemma CoveredStart(reserved: Reservations, printer: WeightPrinter, s: Store, k: string, exp: seq<KanaryEndpointList>)
    requires Covered(reserved, printer, s, k, exp)
    ensures k in s.kanaries && s.kanaries[k].name == k
    ensures Start(printer, s, k) == AfterConfig(s.kanaries[k]) && AimOf(printer, s, k) == []
    ensures OnTrack(reserved, printer, s, k, exp, Start(printer, s, k), false)
  {
    hide OnTrack, ExpectedOf, StatusCovers, Render, ConfigHolds, RestAgrees, NoneMalformed, SpecAllowed, ConfigMapName;
    AfterConfigOnTrack(reserved, printer, s, k, exp, s.kanaries[k], false);
  }

  lemma EndedOnTrack(reserved: Reservations, printer: WeightPrinter, s: Store, k: string,
                     exp: seq<KanaryEndpointList>, t: Task, watched: bool)
    requires OnTrack(reserved, printer, s, k, exp, t, watched) && t.Done?
    ensures Ended(reserved, printer, s, k, exp, watched) && WellKeyed(s) && NoneMalformed(s.endpoints)
  {
  }

  /** Then it completes the rest on any view. */
  lemma CoveredGoesOn(reserved: Reservations, printer: WeightPrinter, s: Store, k: string,
                      exp: seq<KanaryEndpointList>, script: seq<Tick>)
    requires Covered(reserved, printer, s, k, exp) && Versioned(s) && RecentSync(printer, s, k, script)
    ensures var u := SyncSeeing(printer, s, k, script);
            && Ended(reserved, printer, u, k, exp, false) && WellKeyed(u) && NoneMalformed(u.endpoints) && Versioned(u)
            && u.endpoints == s.endpoints && u.kanaries[k].spec == s.kanaries[k].spec
  {
    var t := Start(printer, s, k);
    CoveredStart(reserved, printer, s, k, exp);
    StartShape(printer, s, k);
    RestAgreesWithin(reserved, s, k);
    hide Start, Run, CalmSteps, RecentSync, Versioned, WellKeyed, AtRepeat, Destinations, OnTrack, Ended,
         NoneMalformed, RestAgrees, ConfigDone, ExpectedOf, SpecAllowed;
    var n := RecentSyncIsCut(printer, s, k, script);
    NeverAtRepeat([], CalmSteps(s, t, n).1);
    CalmStepsOnTrack(reserved, printer, s, k, exp, t, false, n);
    CalmStepsLate(s, t, n);
    EndedOnTrack(reserved, printer, CalmSteps(s, t, n).0, k, exp, CalmSteps(s, t, n).1, false);
    RecentSyncKeepsOthers(printer, s, k, script, Destinations(s, k));
  }

  /** After a sync that stopped at a repeated service the next one, on whatever view,
      finds the endpoints recorded, skips the configuration and the references, and
      completes the rest: everything is set and agrees, but no reference is added, and
      from then on no sync writes anything. */
  lemma SyncAfterPause(reserved: Reservations, printer: WeightPrinter, s: Store, k: string,
                       exp: seq<KanaryEndpointList>, next: nat, script: seq<Tick>, watched: bool)
    requires Paused(reserved, printer, s, k, exp, next, watched) && Versioned(s) && RecentSync(printer, s, k, script)
    ensures var u := SyncSeeing(printer, s, k, script);
            && Ended(reserved, printer, u, k, exp, false) && WellKeyed(u) && NoneMalformed(u.endpoints) && Versioned(u)
            && u.endpoints == s.endpoints && Quiet(printer, u, k)
  {
    PausedParts(reserved, printer, s, k, exp, next, watched);
    hide Paused, RecentSync, SyncSeeing, ExpectedOf, Ended, Quiet, WellKeyed, NoneMalformed, Versioned, Repeats,
         ConfigHolds, RestAgrees, Referenced, SpecAllowed, StatusCovers, Covered;
    PausedIsCovered(reserved, printer, s, k, exp, next);
    CoveredGoesOn(reserved, printer, s, k, exp, script);
    EndedMeansQuiet(reserved, printer, SyncSeeing(printer, s, k, script), k, exp, false);
  }

  lemma RestAgreesWithin(reserved: Reservations, s: Store, k: string)
    requires WellKeyed(s) && k in s.kanaries
    requires RestAgrees(reserved, s.deployments, s.rolls, s.services, k, s.kanaries[k])
    ensures Within(s.kanaries[k], Destinations(s, k))
  {
  }

  lemma {:induction false} CalmStepsLate(s: Store, t: Task, n: nat)
    requires !Early(t) && !t.AddRefs?
    ensures CalmSteps(s, t, n).0.endpoints == s.endpoints
    decreases n
  {
    hide Step, Early;
    CalmStepsUnfold(s, t, n);
    if n == 0 || t.Done? {
    } else {
      StaysLate(s, t);
      OtherCallsLeaveEndpoints(s, t, CALM);
      hide CalmSteps;
      CalmStepsLate(Step(s, t, CALM).0, Step(s, t, CALM).1, n - 1);
    }
  }

  /** A sync of k would end before its first call. */
  ghost predicate Quiet(printer: WeightPrinter, s: Store, k: string) {
    Start(printer, s, k) == Done(false)
  }

  lemma QuietSync(printer: WeightPrinter, s: Store, k: string, script: seq<Tick>)
    requires Quiet(printer, s, k)
    ensures Run(s, Start(printer, s, k), script) == (s, false)
  {
  }

  lemma EndedMeansQuiet(reserved: Reservations, printer: WeightPrinter, s: Store, k: string,
                        exp: seq<KanaryEndpointList>, watched: bool)
    requires Ended(reserved, printer, s, k, exp, watched)
    requires ExpectedOf(s.kanaries[k].spec.routes, s.endpoints) == Some(exp)
    ensures Quiet(printer, s, k)
  {
    hide ExpectedOf, StatusCovers, ConfigHolds, ProxyPresent, ServicePresent, Referenced;
  }

  lemma QuietWithoutExpectation(printer: WeightPrinter, s: Store, k: string)
    requires k in s.kanaries ==> ExpectedOf(s.kanaries[k].spec.routes, s.endpoints).None?
    ensures Quiet(printer, s, k)
  {
  }

  /** Convergence of one Kanary: after one sync on a recent view without repeated
      services, or after two on any recent views, no sync writes anything. */
  lemma FixpointOnAnyView(reserved: Reservations, printer: WeightPrinter, s: Store, k: string, first: seq<Tick>,
                          second: seq<Tick>, watched: bool)
    requires WellKeyed(s) && NoneMalformed(s.endpoints) && Versioned(s) && Settled(reserved, printer, s, k, watched)
    requires RecentSync(printer, s, k, first)
    requires RecentSync(printer, SyncSeeing(printer, s, k, first), k, second)
    ensures var u := SyncSeeing(printer, s, k, first);
            && (NoRepeat(printer, s, k) ==> Quiet(printer, u, k))
            && Quiet(printer, SyncSeeing(printer, u, k, second), k)
  {
    SettledWithin(reserved, printer, s, k, watched);
    OutcomeOnAnyView(reserved, printer, s, k, first, watched);
    RecentSyncKeepsOthers(printer, s, k, first, Destinations(s, k));
    var u, routes := SyncSeeing(printer, s, k, first), s.kanaries[k].spec.routes;
    SameExpectation(routes, s.endpoints, u.endpoints);
    hide Start, Run, RecentSync, Settled, Destinations, ExpectedOf, Ended, Paused, WellKeyed, NoneMalformed, NoRepeat,
         OthersKept, Quiet;
    if ExpectedOf(routes, s.endpoints).None? {
      QuietWithoutExpectation(printer, s, k);
      QuietSync(printer, s, k, second);
    } else {
      var exp := ExpectedOf(routes, s.endpoints).value;
      if Ended(reserved, printer, u, k, exp, watched) {
        EndedMeansQuiet(reserved, printer, u, k, exp, watched);
        QuietSync(printer, u, k, second);
      } else {
        var next :| Paused(reserved, printer, u, k, exp, next, watched);
        SyncAfterPause(reserved, printer, u, k, exp, next, second, watched);
      }
    }
  }
}
