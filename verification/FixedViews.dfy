/** A lister that does not change during a sync: when the sync gets through on the
    view it began with, and what it leaves behind when it does not. */
module FixedViews {
  import opened KanaryTypes
  import opened EndpointDiff
  import opened ExpectedStatus
  import opened ConfigText
  import opened BackRefs
  import opened ApiStore
  import opened SyncProtocol
  import opened NonInterference
  import opened CalmSync
  import opened Views

  /** Every call of the script is honoured and sees the same view. */
  ghost predicate Fixed(script: seq<Tick>, view: EndpointsCache) {
    forall i :: 0 <= i < |script| ==> script[i] == Tick(Honoured, Some(view))
  }

  lemma FixedTail(script: seq<Tick>, view: EndpointsCache)
    requires Fixed(script, view)
    ensures Fixed(TailTicks(script), view)
    ensures script != [] ==> HeadTick(script) == Tick(Honoured, Some(view))
  {
  }

  lemma RefKeepsNames(s: Store, cache: EndpointsCache, service: string, owner: string)
    ensures AddKanaryRef(s, cache, service, owner).store.endpoints.Keys == s.endpoints.Keys
  {
    hide AddRef;
  }

  lemma StepKeepsEndpointNames(s: Store, t: Task, tick: Tick)
    requires !t.Done?
    ensures Step(s, t, tick).0.endpoints.Keys == s.endpoints.Keys
  {
    hide AddKanaryRef, Rolled, NewConfigMap, NewDeployment, NewService, Counted, AfterConfig, AfterProxy, RefsFrom;
    if !t.AddRefs? {
      OtherCallsLeaveEndpoints(s, t, tick);
    } else if t.next < |t.ky.status.endpoints| {
      RefKeepsNames(s, tick.cache.GetOr(s.endpoints), t.ky.status.endpoints[t.next].serviceName, t.ky.name);
    }
  }

  /** The view a sync began with is a recent one throughout. */
  lemma {:induction false} FixedIsRecent(view: EndpointsCache, seen: set<Endpoints>, s: Store, t: Task, script: seq<Tick>)
    requires EndpointsKeyed(view) && view.Values <= seen && view.Keys == s.endpoints.Keys && Fixed(script, view)
    ensures Recent(seen, s, t, script)
    decreases Rank(t)
  {
    FixedTail(script, view);
    if t.Done? {
    } else {
      var (s', t') := Step(s, t, HeadTick(script));
      StepKeepsEndpointNames(s, t, HeadTick(script));
      hide Step, Fixed;
      FixedIsRecent(view, seen + s'.endpoints.Values, s', t', TailTicks(script));
    }
  }

  // ---------- the run on a fixed view ----------

  /** n is as the view shows it, or was written since. */
  ghost predicate ShownOrWritten(view: EndpointsCache, m: EndpointsCache, n: string, written: bool)
    requires n in view && n in m
  {
    if written then view[n].version < m[n].version else view[n] == m[n]
  }

  /** The services of the first `next` entries were written since the view, no others. */
  ghost predicate Behind(view: EndpointsCache, m: EndpointsCache, es: seq<KanaryEndpointList>, next: nat) {
    && view.Keys == m.Keys
    && (forall n :: n in m ==> ShownOrWritten(view, m, n, Among(es, next, n)))
    && (forall j: nat :: j < next ==> !Repeats(es, j))
  }

  /** A config-writing sync that has not met a repeated service yet. */
  ghost predicate FixedAt(view: EndpointsCache, es: seq<KanaryEndpointList>, s: Store, t: Task) {
    && Aims(es, t)
    && (Early(t) ==> Behind(view, s.endpoints, es, 0))
    && (t.AddRefs? ==> t.next < |es| && Behind(view, s.endpoints, es, t.next))
    && (!Early(t) && !t.AddRefs? ==> DistinctServices(es))
  }

  /** In a fault-free sync the calls up to the references succeed. */
  lemma EarlyGoesOn(reserved: Reservations, printer: WeightPrinter, s: Store, k: string,
                    exp: seq<KanaryEndpointList>, t: Task, watched: bool)
    requires OnTrack(reserved, printer, s, k, exp, t, watched) && Early(t)
    ensures Early(Step(s, t, CALM).1) || (Step(s, t, CALM).1.AddRefs? && Step(s, t, CALM).1.next == 0)
  {
    if t.WriteConfig? {
      hide WellKeyed, NoneMalformed, ExpectedOf, StatusCovers, ProxyPresent, NoService, ServicePresent, SpecAllowed,
           Referenced, ConfigFor;
    } else if t.ReadProxy? || t.RollProxy? {
      ProxyCallsSucceed(reserved, printer, s, k, exp, t, watched);
    } else {
      hide WellKeyed, NoneMalformed, ExpectedOf, StatusCovers, ProxyPresent, NoService, ServicePresent, SpecAllowed,
           Referenced, ConfigFor, ConfigHolds, RestAgrees;
      assert t.ky.name == k by { KanaryNamed(s, k); }
    }
  }

  lemma KanaryNamed(s: Store, k: string)
    requires WellKeyed(s) && k in s.kanaries
    ensures s.kanaries[k].name == k
  {
  }

  lemma ProxyCallsSucceed(reserved: Reservations, printer: WeightPrinter, s: Store, k: string,
                          exp: seq<KanaryEndpointList>, t: Task, watched: bool)
    requires OnTrack(reserved, printer, s, k, exp, t, watched) && (t.ReadProxy? || t.RollProxy?)
    ensures Early(Step(s, t, CALM).1)
  {
    assert ProxyName(k) in s.deployments;
    ProxyNamed(s, k);
    hide WellKeyed, NoneMalformed, ExpectedOf, StatusCovers, NoService, ServicePresent, SpecAllowed, Referenced, ConfigFor,
         ConfigHolds, RestAgrees, ProxyName, Rolled;
    if t.RollProxy? {
      RolledName(t.deployment);
    }
  }

  /** ... and so do additions of references on a current view. */
  lemma ReferenceGoesOn(reserved: Reservations, printer: WeightPrinter, s: Store, k: string,
                        exp: seq<KanaryEndpointList>, t: Task, watched: bool)
    requires OnTrack(reserved, printer, s, k, exp, t, watched) && t.AddRefs?
    ensures t.next < |exp| && t.ky.status.endpoints == exp && t.ky.name == k && exp[t.next].serviceName in s.endpoints
    ensures AddKanaryRef(s, s.endpoints, exp[t.next].serviceName, k).reply.Some?
    ensures Step(s, t, CALM) == (AddKanaryRef(s, s.endpoints, exp[t.next].serviceName, k).store, RefsFrom(t.ky, t.next + 1))
  {
    KanaryNamed(s, k);
    ExpectedExists(t.ky.spec.routes, s.endpoints, t.next);
    RefAdded(s, k, exp[t.next].serviceName, t.ky.spec.routes);
    hide ExpectedOf, StatusCovers, AddKanaryRef, ConfigHolds, RestAgrees, Referenced, WellKeyed, NoneMalformed;
    AddRefsShape(s, t, k);
  }

  /** The next reference conflicts on the fixed view exactly at a repeated service. */
  lemma FixedConflict(view: EndpointsCache, es: seq<KanaryEndpointList>, s: Store, t: Task)
    requires EndpointsKeyed(view) && WellKeyed(s) && FixedAt(view, es, s, t) && t.AddRefs?
    ensures var tick := Tick(Honoured, Some(view));
            if Repeats(es, t.next) then Step(s, t, tick) == (s, Done(false)) else Step(s, t, tick) == Step(s, t, CALM)
  {
    var service := es[t.next].serviceName;
    if service in view {
      assert ShownOrWritten(view, s.endpoints, service, Among(es, t.next, service));
      assert view[service].name == service;
      hide AddRef, Among;
      if Repeats(es, t.next) {
        assert view[service].version < s.endpoints[service].version;
      }
    } else {
      assert service !in s.endpoints;
      if Repeats(es, t.next) {
        hide Among;
      }
    }
  }

  lemma BehindAfterPut(view: EndpointsCache, m: EndpointsCache, es: seq<KanaryEndpointList>, next: nat, ep: Endpoints)
    requires Behind(view, m, es, next) && next < |es| && !Repeats(es, next)
    requires ep.name == es[next].serviceName && ep.name in m && m[ep.name].version < ep.version
    ensures Behind(view, m[ep.name := ep], es, next + 1)
  {
    forall n | n in m ensures ShownOrWritten(view, m[ep.name := ep], n, Among(es, next + 1, n)) {
      AmongOneMore(es, next, n);
      assert ShownOrWritten(view, m, n, Among(es, next, n));
    }
    hide Among;
  }

  lemma NoRepeatsAtAll(view: EndpointsCache, m: EndpointsCache, es: seq<KanaryEndpointList>)
    requires Behind(view, m, es, |es|)
    ensures DistinctServices(es)
  {
    DistinctMeansNoRepeat(es);
  }

  lemma FixedStep(reserved: Reservations, printer: WeightPrinter, view: EndpointsCache, s: Store, k: string,
                  exp: seq<KanaryEndpointList>, t: Task, watched: bool)
    requires OnTrack(reserved, printer, s, k, exp, t, watched) && Versioned(s) && WellKeyed(s) && EndpointsKeyed(view)
    requires FixedAt(view, exp, s, t) && !t.Done?
    ensures var tick := Tick(Honoured, Some(view));
            if AtRepeat(exp, t) then Step(s, t, tick) == (s, Done(false))
            else Step(s, t, tick) == Step(s, t, CALM) && FixedAt(view, exp, Step(s, t, CALM).0, Step(s, t, CALM).1)
  {
    if t.AddRefs? {
      FixedConflict(view, exp, s, t);
      if !Repeats(exp, t.next) {
        FixedReference(reserved, printer, view, s, k, exp, t, watched);
      }
    } else {
      ViewUnused(s, t, view);
      OtherCallsLeaveEndpoints(s, t, CALM);
      StepAims(exp, s, t);
      if Early(t) {
        EarlyGoesOn(reserved, printer, s, k, exp, t, watched);
      } else {
        StaysLate(s, t);
      }
      hide Step, Behind, OnTrack;
      assert exp != [] by { ExpectationNotEmpty(reserved, printer, s, k, exp, t, watched); }
    }
  }

  lemma ExpectationNotEmpty(reserved: Reservations, printer: WeightPrinter, s: Store, k: string,
                            exp: seq<KanaryEndpointList>, t: Task, watched: bool)
    requires OnTrack(reserved, printer, s, k, exp, t, watched) && !t.Done?
    ensures exp != []
  {
  }

  lemma ViewUnused(s: Store, t: Task, view: EndpointsCache)
    requires !t.Done? && !t.AddRefs?
    ensures Step(s, t, Tick(Honoured, Some(view))) == Step(s, t, CALM)
  {
    hide AddKanaryRef, Rolled, CreateConfigMap, UpdateConfigMap, UpdateKanary, CreateDeployment, UpdateDeployment;
  }

  lemma RefsFromFixed(view: EndpointsCache, es: seq<KanaryEndpointList>, s: Store, ky: Kanary, next: nat)
    requires ky.status.endpoints == es && next <= |es| && Behind(view, s.endpoints, es, next)
    ensures FixedAt(view, es, s, RefsFrom(ky, next))
  {
    if next == |es| {
      NoRepeatsAtAll(view, s.endpoints, es);
    }
    hide Behind;
  }

  lemma FixedAddsBehind(view: EndpointsCache, es: seq<KanaryEndpointList>, s: Store, t: Task)
    requires FixedAt(view, es, s, t) && t.AddRefs?
    ensures t.ky.status.endpoints == es && t.next < |es| && Behind(view, s.endpoints, es, t.next)
  {
  }

  lemma FixedReference(reserved: Reservations, printer: WeightPrinter, view: EndpointsCache, s: Store, k: string,
                       exp: seq<KanaryEndpointList>, t: Task, watched: bool)
    requires OnTrack(reserved, printer, s, k, exp, t, watched) && Versioned(s) && WellKeyed(s)
    requires FixedAt(view, exp, s, t) && t.AddRefs? && !Repeats(exp, t.next)
    ensures FixedAt(view, exp, Step(s, t, CALM).0, Step(s, t, CALM).1)
  {
    KeyedEndpoints(s);
    hide *;
    FixedAddsBehind(view, exp, s, t);
    ReferenceGoesOn(reserved, printer, s, k, exp, t, watched);
    var service := exp[t.next].serviceName;
    var u := AddKanaryRef(s, s.endpoints, service, k).store;
    ReferenceWrites(s, service, k);
    BehindAfterPut(view, s.endpoints, exp, t.next, u.endpoints[service]);
    RefsFromFixed(view, exp, u, t.ky, t.next + 1);
  }

  lemma ReferenceWrites(s: Store, service: string, k: string)
    requires EndpointsKeyed(s.endpoints) && Versioned(s) && AddKanaryRef(s, s.endpoints, service, k).reply.Some?
    ensures var u := AddKanaryRef(s, s.endpoints, service, k).store;
            && service in s.endpoints && service in u.endpoints && u.rev == s.rev + 1
            && u.endpoints == s.endpoints[service := u.endpoints[service]]
            && u.endpoints[service].name == service && s.endpoints[service].version < u.endpoints[service].version
  {
    hide AddRef;
  }

  /** On a fixed view a config-writing sync is the calm one up to the first repeated
      service, where it stops; without one it is the calm one. */
  lemma {:induction false} FixedIsCut(reserved: Reservations, printer: WeightPrinter, view: EndpointsCache, s: Store,
                                      k: string, exp: seq<KanaryEndpointList>, t: Task, script: seq<Tick>, watched: bool)
    returns (n: nat)
    requires OnTrack(reserved, printer, s, k, exp, t, watched) && Versioned(s) && WellKeyed(s) && EndpointsKeyed(view)
    requires FixedAt(view, exp, s, t) && Fixed(script, view) && |script| >= Rank(t)
    ensures var (u, t') := CalmSteps(s, t, n);
            && Run(s, t, script).0 == u && FixedAt(view, exp, u, t') && Versioned(u)
            && OnTrack(reserved, printer, u, k, exp, t', watched)
            && (t'.Done? || AtRepeat(exp, t'))
    decreases Rank(t)
  {
    FixedTail(script, view);
    RunUnfold(s, t, script);
    hide *;
    n := 0;
    CalmStepsUnfold(s, t, 0);
    if !t.Done? {
      FixedStep(reserved, printer, view, s, k, exp, t, watched);
      StepOnTrack(reserved, printer, s, k, exp, t, watched);
      var (s', t') := Step(s, t, HeadTick(script));
      if AtRepeat(exp, t) {
        RunUnfold(s, Done(false), TailTicks(script));
      } else {
        OnTrackKeyed(reserved, printer, s', k, exp, t', watched);
        StepKeepsVersioned(s, t);
        n := FixedIsCut(reserved, printer, view, s', k, exp, t', TailTicks(script), watched);
        n := n + 1;
        CalmStepsUnfold(s, t, n);
      }
    }
  }

  lemma RunUnfold(s: Store, t: Task, script: seq<Tick>)
    ensures t.Done? ==> Run(s, t, script) == (s, t.err)
    ensures !t.Done? ==>
              && Rank(t) > 0
              && Rank(Step(s, t, HeadTick(script)).1) < Rank(t)
              && |TailTicks(script)| >= |script| - 1
              && Run(s, t, script) == Run(Step(s, t, HeadTick(script)).0, Step(s, t, HeadTick(script)).1, TailTicks(script))
  {
  }

  lemma OnTrackKeyed(reserved: Reservations, printer: WeightPrinter, s: Store, k: string,
                     exp: seq<KanaryEndpointList>, t: Task, watched: bool)
    requires OnTrack(reserved, printer, s, k, exp, t, watched)
    ensures WellKeyed(s)
  {
  }

  lemma StepKeepsVersioned(s: Store, t: Task)
    requires WellKeyed(s) && Versioned(s) && !t.Done?
    ensures Versioned(Step(s, t, CALM).0) && s.rev <= Step(s, t, CALM).0.rev
  {
    if t.AddRefs? {
      if t.next < |t.ky.status.endpoints| {
        RefPut(s, t.ky.status.endpoints[t.next].serviceName, t.ky.name);
        hide AddKanaryRef, WellKeyed;
      }
    } else {
      OtherCallsLeaveEndpoints(s, t, CALM);
      hide Step;
    }
  }

  // ---------- a whole sync on the view it began with ----------

  /** A fault-free sync of k that writes its configuration, from a boundary, on a
      lister that shows throughout what it showed when the sync began. */
  ghost predicate FixedSync(reserved: Reservations, printer: WeightPrinter, s: Store, k: string, script: seq<Tick>) {
    && WellKeyed(s) && NoneMalformed(s.endpoints) && Versioned(s) && Settled(reserved, printer, s, k, false)
    && Start(printer, s, k).WriteConfig?
    && Fixed(script, s.endpoints) && |script| >= Rank(Start(printer, s, k))
  }

  lemma FixedSyncIsRecent(reserved: Reservations, printer: WeightPrinter, s: Store, k: string, script: seq<Tick>)
    requires FixedSync(reserved, printer, s, k, script)
    ensures RecentSync(printer, s, k, script)
  {
    FixedIsRecent(s.endpoints, s.endpoints.Values, s, Start(printer, s, k), script);
  }

  lemma WritingExpects(printer: WeightPrinter, s: Store, k: string)
    requires Start(printer, s, k).WriteConfig?
    ensures k in s.kanaries && Start(printer, s, k).ky == s.kanaries[k]
    ensures ExpectedOf(s.kanaries[k].spec.routes, s.endpoints) == Some(AimOf(printer, s, k))
  {
    hide ExpectedOf, Render, StatusCovers;
  }

  lemma FixedSyncStart(reserved: Reservations, printer: WeightPrinter, s: Store, k: string, script: seq<Tick>)
    requires FixedSync(reserved, printer, s, k, script)
    ensures var exp, t := AimOf(printer, s, k), Start(printer, s, k);
            && OnTrack(reserved, printer, s, k, exp, t, false) && FixedAt(s.endpoints, exp, s, t)
            && WellKeyed(s) && Versioned(s) && EndpointsKeyed(s.endpoints)
            && Fixed(script, s.endpoints) && |script| >= Rank(t)
  {
    WritingExpects(printer, s, k);
    StartOnTrack(reserved, printer, s, k, false);
    StartShape(printer, s, k);
    var exp := AimOf(printer, s, k);
    assert Behind(s.endpoints, s.endpoints, exp, 0);
    hide Start, AimOf, OnTrack, Settled, Behind, NoneMalformed, ExpectedOf;
  }

  lemma FixedDone(view: EndpointsCache, es: seq<KanaryEndpointList>, s: Store, t: Task)
    requires FixedAt(view, es, s, t) && t.Done?
    ensures DistinctServices(es)
  {
  }

  /** How far such a sync comes: to its end, without a repeated service, or to the
      first repeated service. */
  lemma FixedSyncIsCut(reserved: Reservations, printer: WeightPrinter, s: Store, k: string, script: seq<Tick>)
    returns (n: nat)
    requires FixedSync(reserved, printer, s, k, script)
    ensures var exp := AimOf(printer, s, k);
            var (u, t') := CalmSteps(s, Start(printer, s, k), n);
            && SyncSeeing(printer, s, k, script) == u && FixedAt(s.endpoints, exp, u, t') && Versioned(u)
            && OnTrack(reserved, printer, u, k, exp, t', false)
            && (t'.Done? || AtRepeat(exp, t')) && (t'.Done? ==> DistinctServices(exp))
  {
    FixedSyncStart(reserved, printer, s, k, script);
    SeeingIsRun(printer, s, k, script);
    hide *;
    var exp, t := AimOf(printer, s, k), Start(printer, s, k);
    n := FixedIsCut(reserved, printer, s.endpoints, s, k, exp, t, script, false);
    var (u, t') := CalmSteps(s, t, n);
    if t'.Done? {
      FixedDone(s.endpoints, exp, u, t');
    }
  }

  lemma SeeingIsRun(printer: WeightPrinter, s: Store, k: string, script: seq<Tick>)
    ensures SyncSeeing(printer, s, k, script) == Run(s, Start(printer, s, k), script).0
  {
  }

  lemma {:induction false} RunGrows(s: Store, t: Task)
    requires WellKeyed(s) && Versioned(s)
    ensures s.rev <= Run(s, t, []).0.rev
    decreases Rank(t)
  {
    RunUnfold(s, t, []);
    if t.Done? {
    } else {
      StepKeepsVersioned(s, t);
      StepKeepsKeyed(s, t, CALM);
      hide Run, Step, WellKeyed, Versioned;
      RunGrows(Step(s, t, CALM).0, Step(s, t, CALM).1);
    }
  }

  /** The calm sync goes on with a reference where the fixed one stops. */
  lemma ReferenceGrows(reserved: Reservations, printer: WeightPrinter, s: Store, k: string,
                       exp: seq<KanaryEndpointList>, t: Task, watched: bool)
    requires OnTrack(reserved, printer, s, k, exp, t, watched) && t.AddRefs? && Versioned(s) && WellKeyed(s)
    ensures s.rev < Run(s, t, []).0.rev
  {
    ReferenceGoesOn(reserved, printer, s, k, exp, t, watched);
    ReferenceWrites(s, exp[t.next].serviceName, k);
    StepKeepsVersioned(s, t);
    StepKeepsKeyed(s, t, CALM);
    RunUnfold(s, t, []);
    hide OnTrack, Run, Step, AddKanaryRef, WellKeyed, Versioned;
    RunGrows(Step(s, t, CALM).0, Step(s, t, CALM).1);
  }

  /** A config-writing sync on the view it began with does what it does on an
      up-to-date one if and only if it is to record no service twice. */
  lemma FixedViewSuffices(reserved: Reservations, printer: WeightPrinter, s: Store, k: string, script: seq<Tick>)
    requires FixedSync(reserved, printer, s, k, script)
    ensures SyncSeeing(printer, s, k, script) == Sync(printer, s, k) <==> NoRepeat(printer, s, k)
  {
    FixedSyncIsRecent(reserved, printer, s, k, script);
    var t, exp := Start(printer, s, k), AimOf(printer, s, k);
    if NoRepeat(printer, s, k) {
      ViewDoesNotMatter(printer, s, k, script);
    } else {
      var n := FixedSyncIsCut(reserved, printer, s, k, script);
      var (u, t') := CalmSteps(s, t, n);
      CalmStepsThenRun(s, t, n);
      SyncIsRun(printer, s, k);
      OnTrackKeyed(reserved, printer, u, k, exp, t', false);
      hide Start, AimOf, OnTrack, Run, CalmSteps, WellKeyed, Versioned, FixedAt;
      ReferenceGrows(reserved, printer, u, k, exp, t', false);
    }
  }

  // ---------- what is left behind ----------

  /** Up to the references the proxy and the service stay as recorded. */
  ghost predicate RestRecorded(proxy: string, service: string, t: Task) {
    Early(t) || t.AddRefs? ==>
      t.ky.status.destination.proxyName == proxy && t.ky.status.destination.serviceName == service
  }

  lemma StepKeepsRest(proxy: string, service: string, s: Store, t: Task)
    requires !t.Done? && RestRecorded(proxy, service, t) && (Early(t) || t.AddRefs?)
    ensures RestRecorded(proxy, service, Step(s, t, CALM).1)
  {
    hide Rolled, NewConfigMap, Counted, AddKanaryRef;
  }

  lemma {:induction false} CalmStepsKeepRest(proxy: string, service: string, s: Store, t: Task, n: nat)
    requires RestRecorded(proxy, service, t)
    ensures RestRecorded(proxy, service, CalmSteps(s, t, n).1)
    decreases n
  {
    CalmStepsUnfold(s, t, n);
    hide Step, CalmSteps;
    if n == 0 || t.Done? {
    } else {
      if Early(t) || t.AddRefs? {
        StepKeepsRest(proxy, service, s, t);
      } else {
        StaysLate(s, t);
      }
      hide RestRecorded;
      CalmStepsKeepRest(proxy, service, Step(s, t, CALM).0, Step(s, t, CALM).1, n - 1);
    }
  }

  /** Half set: configuration and endpoints are recorded, proxy and service are not. */
  ghost predicate HalfSet(s: Store, k: string, exp: seq<KanaryEndpointList>) {
    && k in s.kanaries
    && var st := s.kanaries[k].status;
       && st.endpoints == exp && st.destination.configName != ""
       && st.destination.proxyName == "" && st.destination.serviceName == ""
  }

  lemma PausedIsHalfSet(reserved: Reservations, printer: WeightPrinter, s: Store, k: string,
                        exp: seq<KanaryEndpointList>, t: Task, watched: bool)
    requires OnTrack(reserved, printer, s, k, exp, t, watched) && t.AddRefs? && RestRecorded("", "", t)
    ensures HalfSet(s, k, exp)
  {
  }

  /** The first sync of a Kanary on the view it began with leaves it complete, and
      listed by all its services, if and only if no service is named twice; otherwise it
      ends without an error and half set, so it is not retried. */
  lemma FirstSyncOnFixedView(reserved: Reservations, printer: WeightPrinter, s: Store, k: string, script: seq<Tick>)
    requires FixedSync(reserved, printer, s, k, script) && Blank(reserved, s, k)
    ensures var (u, err) := Run(s, Start(printer, s, k), script);
            var exp := AimOf(printer, s, k);
            && !err
            && (Ended(reserved, printer, u, k, exp, true) <==> NoRepeat(printer, s, k))
            && (HalfSet(u, k, exp) <==> !NoRepeat(printer, s, k))
  {
    FixedSyncIsRecent(reserved, printer, s, k, script);
    OutcomeOnAnyView(reserved, printer, s, k, script, true);
    WritingExpects(printer, s, k);
    var t, exp := Start(printer, s, k), AimOf(printer, s, k);
    assert RestRecorded("", "", t);
    EndedIsNotHalfSet(reserved, printer, SyncSeeing(printer, s, k, script), k, exp);
    if !NoRepeat(printer, s, k) {
      var n := FixedSyncIsCut(reserved, printer, s, k, script);
      CalmStepsKeepRest("", "", s, t, n);
      hide Start, AimOf, OnTrack, Run, CalmSteps, FixedAt, Ended, HalfSet, RestRecorded, RecentSync, FixedSync;
      PausedIsHalfSet(reserved, printer, CalmSteps(s, t, n).0, k, exp, CalmSteps(s, t, n).1, false);
    }
  }

  lemma EndedIsNotHalfSet(reserved: Reservations, printer: WeightPrinter, s: Store, k: string, exp: seq<KanaryEndpointList>)
    ensures !(Ended(reserved, printer, s, k, exp, true) && HalfSet(s, k, exp))
  {
  }

  /** Such a Kanary: two routes to one service, say to two of its ports. */
  lemma TwoRoutesToOneService(reserved: Reservations, printer: WeightPrinter, s: Store, k: string, script: seq<Tick>)
    requires FixedSync(reserved, printer, s, k, script) && Blank(reserved, s, k)
    requires var routes := s.kanaries[k].spec.routes;
             |routes| == 2 && routes[0].backend.serviceName == routes[1].backend.serviceName
    ensures Run(s, Start(printer, s, k), script).1 == false
    ensures HalfSet(SyncSeeing(printer, s, k, script), k, AimOf(printer, s, k))
  {
    WritingExpects(printer, s, k);
    EntriesAligned(s.kanaries[k].spec.routes, s.endpoints);
    var exp := AimOf(printer, s, k);
    assert exp[0].serviceName == exp[1].serviceName;
    hide AimOf, Start, Run, FixedSync, HalfSet, Ended;
    FirstSyncOnFixedView(reserved, printer, s, k, script);
  }

  lemma FirstRepeatIsEarly(view: EndpointsCache, m: EndpointsCache, es: seq<KanaryEndpointList>, next: nat, p: nat, q: nat,
                           i: nat)
    requires Behind(view, m, es, next) && p < q < i < |es| && es[p].serviceName == es[q].serviceName
    requires !Among(es, i, es[i].serviceName) && es[i].serviceName in m
    ensures m[es[i].serviceName] == view[es[i].serviceName]
  {
    assert Repeats(es, q);
    assert next <= q;
    assert !Among(es, next, es[i].serviceName);
    assert ShownOrWritten(view, m, es[i].serviceName, false);
  }

  lemma FixedAtRepeat(view: EndpointsCache, es: seq<KanaryEndpointList>, s: Store, t: Task)
    requires FixedAt(view, es, s, t) && AtRepeat(es, t)
    ensures Behind(view, s.endpoints, es, t.next)
  {
  }

  /** A service that is first named after a repeated one is never told: it does not
      list the Kanary after the sync, the next sync completes everything but the
      references, and from then on no sync writes anything. */
  lemma ServiceAfterRepeatIsNotTold(reserved: Reservations, printer: WeightPrinter, s: Store, k: string,
                                    first: seq<Tick>, second: seq<Tick>, p: nat, q: nat, i: nat)
    requires FixedSync(reserved, printer, s, k, first)
    requires RecentSync(printer, SyncSeeing(printer, s, k, first), k, second)
    requires var exp := AimOf(printer, s, k);
             && p < q < i < |exp| && exp[p].serviceName == exp[q].serviceName && !Among(exp, i, exp[i].serviceName)
             && exp[i].serviceName in s.endpoints
             && k !in s.endpoints[exp[i].serviceName].kanaryRef.Names()
    ensures var service := AimOf(printer, s, k)[i].serviceName;
            var u := SyncSeeing(printer, SyncSeeing(printer, s, k, first), k, second);
            && Ended(reserved, printer, u, k, AimOf(printer, s, k), false) && Quiet(printer, u, k)
            && service in u.endpoints && k !in u.endpoints[service].kanaryRef.Names()
  {
    var exp, t := AimOf(printer, s, k), Start(printer, s, k);
    var n := FixedSyncIsCut(reserved, printer, s, k, first);
    var (u, t') := CalmSteps(s, t, n);
    hide Start, AimOf, OnTrack, CalmSteps, Run, FixedAt, FixedSync, Versioned, RecentSync, Ended, Quiet, Among, WellKeyed,
         AtRepeat;
    assert !DistinctServices(exp);
    FixedAtRepeat(s.endpoints, exp, u, t');
    assert exp[i].serviceName in u.endpoints by { BehindKeys(s.endpoints, u.endpoints, exp, t'.next); }
    FirstRepeatIsEarly(s.endpoints, u.endpoints, exp, t'.next, p, q, i);
    PausedAt(reserved, printer, u, k, exp, exp, t', false);
    SyncAfterPause(reserved, printer, u, k, exp, t'.next, second, false);
  }

  lemma BehindKeys(view: EndpointsCache, m: EndpointsCache, es: seq<KanaryEndpointList>, next: nat)
    requires Behind(view, m, es, next)
    ensures view.Keys == m.Keys
  {
  }
}
