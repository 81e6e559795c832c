/** Where the names in kanaryRef lists come from that belong to no Kanary any more:
    such a name stops the wake-up of every Kanary listed behind it. */
module DanglingRefs {
  import opened KanaryTypes
  import opened Lists
  import opened EndpointDiff
  import opened ExpectedStatus
  import opened ConfigText
  import opened BackRefs
  import opened ApiStore
  import opened SyncProtocol
  import opened KanaryController
  import opened NonInterference
  import opened CalmSync
  import opened Views
  import opened DeletionRuns
  import opened CalmRuns

  /** n lists k. */
  ghost predicate ListsName(s: Store, n: string, k: string) {
    n in s.endpoints && k in s.endpoints[n].kanaryRef.Names()
  }

  // ---------- lists without duplicates stay so ----------

  lemma AppendedIsClean(k: string, m: EndpointsCache, n: EndpointsCache)
    requires CleanRefs(m) && EndpointsKept(k, m, n) && EndpointsKeyed(n)
    ensures CleanRefs(n)
  {
    forall e | e in n ensures n[e].name == e && NoDup(n[e].kanaryRef.Names()) {
      assert Appended(k, m[e].kanaryRef, n[e].kanaryRef) && NoDup(m[e].kanaryRef.Names());
    }
  }

  lemma StruckIsClean(k: string, es: seq<KanaryEndpointList>, i: nat, m: EndpointsCache, n: EndpointsCache)
    requires CleanRefs(m) && StruckUpTo(k, es, i, m, n)
    ensures CleanRefs(n)
  {
    forall e | e in n ensures n[e].name == e && NoDup(n[e].kanaryRef.Names()) {
      assert StruckIf(k, m[e], n[e], Among(es, i, e));
      OthersNoDup(m[e].kanaryRef.Names(), k);
    }
  }

  lemma SyncKeepsRefs(reserved: Reservations, printer: WeightPrinter, s: Store, k: string, script: seq<Tick>,
                      watched: bool)
    requires Good(reserved, printer, s, watched) && RecentSync(printer, s, k, script)
    ensures var u := SyncSeeing(printer, s, k, script);
            && EndpointsKept(k, s.endpoints, u.endpoints) && WellKeyed(u)
            && (k !in s.kanaries ==> u == s)
  {
    hide RecentSync;
    if k in s.kanaries {
      assert Settled(reserved, printer, s, k, watched);
      SettledWithin(reserved, printer, s, k, watched);
      RecentSyncKeepsOthers(printer, s, k, script, Destinations(s, k));
      hide SyncSeeing, Settled, Destinations, EndpointsKept, WellKeyed;
    } else {
      NothingToDo(printer, s, k, script);
    }
  }

  lemma DeletionLeaves(s: Store, k: string, script: seq<Tick>)
    requires CleanRefs(s.endpoints) && k in s.kanaries && s.kanaries[k].name == k
    requires UndisturbedDeletion(WithoutKanary(s, k), s.kanaries[k], script)
    ensures var es := s.kanaries[k].status.endpoints;
            StruckUpTo(k, es, Stop(s.endpoints, k, es, 0), s.endpoints, AfterDeletion(s, k, script).endpoints)
  {
    hide StruckUpTo, Stop, RunDeletion, UndisturbedDeletion, UpToDate, CleanRefs;
    var stale := DeletionOutcome(WithoutKanary(s, k), s.kanaries[k], script);
  }

  lemma EventKeepsClean(reserved: Reservations, printer: WeightPrinter, s: Store, e: CalmEvent, watched: bool)
    requires Good(reserved, printer, s, watched) && Allowed(reserved, printer, s, e, watched) && CleanRefs(s.endpoints)
    ensures CleanRefs(Happen(printer, s, e).endpoints)
  {
    hide SyncSeeing, RecentSync, AfterDeletion, UndisturbedDeletion, Settled;
    if e.SyncOf? {
      hide CleanRefs;
      SyncKeepsRefs(reserved, printer, s, e.k, e.script, watched);
      AppendedIsClean(e.k, s.endpoints, SyncSeeing(printer, s, e.k, e.script).endpoints);
    } else if e.DeleteKanary? && e.k in s.kanaries {
      assert s.kanaries[e.k].name == e.k;
      hide CleanRefs;
      var es := s.kanaries[e.k].status.endpoints;
      DeletionLeaves(s, e.k, e.script);
      StruckIsClean(e.k, es, Stop(s.endpoints, e.k, es, 0), s.endpoints, AfterDeletion(s, e.k, e.script).endpoints);
    }
  }

  lemma {:induction false} AlwaysClean(reserved: Reservations, printer: WeightPrinter, states: seq<Store>,
                                       events: seq<CalmEvent>, i: nat, watched: bool)
    requires CalmRun(reserved, printer, states, events, watched) && i < |states| && CleanRefs(states[0].endpoints)
    ensures CleanRefs(states[i].endpoints)
    decreases i
  {
    if i == 0 {
    } else {
      hide Good, Allowed, Happen, Fresh, CleanRefs;
      AlwaysClean(reserved, printer, states, events, i - 1, watched);
      AlwaysGood(reserved, printer, states, events, i - 1, watched);
      var e := events[i - 1];
      assert Occurs(reserved, printer, states[i - 1], e, states[i], watched);
      EventKeepsClean(reserved, printer, states[i - 1], e, watched);
    }
  }

  // ---------- one event ----------

  /** A name that is not a Kanary's stays where it is, whatever happens to its list. */
  lemma AbsentNameStays(reserved: Reservations, printer: WeightPrinter, s: Store, e: CalmEvent, n: string, k: string,
                        watched: bool)
    requires Good(reserved, printer, s, watched) && Allowed(reserved, printer, s, e, watched) && k !in s.kanaries
    ensures ListsName(Happen(printer, s, e), n, k) <==> ListsName(s, n, k) && n in Happen(printer, s, e).endpoints
  {
    hide SyncSeeing, RecentSync, AfterDeletion, UndisturbedDeletion, Settled;
    if e.SyncOf? {
      var u := SyncSeeing(printer, s, e.k, e.script);
      SyncKeepsRefs(reserved, printer, s, e.k, e.script, watched);
      if e.k != k {
        EndpointsKeptAlike(e.k, s.endpoints, u.endpoints, k);
        AlikeLists(s.endpoints, u.endpoints, n, k);
      }
    } else if e.DeleteKanary? && e.k in s.kanaries {
      DeletedShape(s, e.k, e.script);
      RefsStruckAlike(e.k, s.endpoints, AfterDeletion(s, e.k, e.script).endpoints, k);
      AlikeLists(s.endpoints, AfterDeletion(s, e.k, e.script).endpoints, n, k);
    }
  }

  lemma AlikeLists(m: EndpointsCache, n: EndpointsCache, e: string, k: string)
    requires EndpointsAlike(k, m, n)
    ensures e in m <==> e in n
    ensures e in m ==> (k in m[e].kanaryRef.Names() <==> k in n[e].kanaryRef.Names())
  {
    if e in m {
      assert SameEndpointsTo(k, m[e], n[e]);
      assert k in m[e].kanaryRef.Names() <==> multiset(m[e].kanaryRef.Names())[k] > 0;
      assert k in n[e].kanaryRef.Names() <==> multiset(n[e].kanaryRef.Names())[k] > 0;
    }
  }

  /** A deletion of k leaves k in n's list: the handler stops before it comes to n, or
      k's status does not name n, because its routes have left the service. */
  ghost predicate Strands(s: Store, e: CalmEvent, n: string, k: string) {
    && e.DeleteKanary? && e.k == k && k in s.kanaries && ListsName(s, n, k)
    && var es := s.kanaries[k].status.endpoints; !Among(es, Stop(s.endpoints, k, es, 0), n)
  }

  lemma DeletionStrands(printer: WeightPrinter, s: Store, n: string, k: string, script: seq<Tick>)
    requires CleanRefs(s.endpoints) && k in s.kanaries && s.kanaries[k].name == k
    requires UndisturbedDeletion(WithoutKanary(s, k), s.kanaries[k], script)
    ensures ListsName(AfterDeletion(s, k, script), n, k) <==> Strands(s, DeleteKanary(k, script), n, k)
    ensures n in AfterDeletion(s, k, script).endpoints <==> n in s.endpoints
  {
    hide AfterDeletion, CleanRefs, Stop, Among, UndisturbedDeletion;
    DeletionLeaves(s, k, script);
    if n in s.endpoints {
      var es := s.kanaries[k].status.endpoints;
      assert StruckIf(k, s.endpoints[n], AfterDeletion(s, k, script).endpoints[n], Among(es, Stop(s.endpoints, k, es, 0), n));
      OthersCounts(s.endpoints[n].kanaryRef.Names(), k, k);
      assert k !in Others(s.endpoints[n].kanaryRef.Names(), k);
    }
  }

  /** Only its deletion ends a Kanary. */
  lemma OnlyDeletionEnds(reserved: Reservations, printer: WeightPrinter, s: Store, e: CalmEvent, k: string, watched: bool)
    requires Good(reserved, printer, s, watched) && Allowed(reserved, printer, s, e, watched)
    requires k in s.kanaries && k !in Happen(printer, s, e).kanaries
    ensures e.DeleteKanary? && e.k == k && s.kanaries[k].name == k
    ensures UndisturbedDeletion(WithoutKanary(s, k), s.kanaries[k], e.script)
    ensures Happen(printer, s, e) == AfterDeletion(s, k, e.script)
  {
    hide SyncSeeing, RecentSync, AfterDeletion, UndisturbedDeletion, Settled;
    if e.SyncOf? {
      SyncKeepsNames(reserved, printer, s, e.k, e.script, watched);
    } else if e.DeleteKanary? && e.k in s.kanaries {
      DeletedShape(s, e.k, e.script);
    }
  }

  // ---------- runs ----------

  /** k was last deleted by event j, its list n has been there ever since, and that
      deletion left the name in it. */
  ghost predicate StrandedBy(states: seq<Store>, events: seq<CalmEvent>, i: nat, j: nat, n: string, k: string)
    requires i < |states| == |events| + 1
  {
    && j < i && Strands(states[j], events[j], n, k)
    && forall m :: j < m <= i ==> k !in states[m].kanaries && n in states[m].endpoints
  }

  ghost predicate Stranded(states: seq<Store>, events: seq<CalmEvent>, i: nat, n: string, k: string)
    requires i < |states| == |events| + 1
  {
    exists j: nat :: StrandedBy(states, events, i, j, n, k)
  }

  lemma StrandedLater(states: seq<Store>, events: seq<CalmEvent>, i: nat, n: string, k: string)
    requires i + 1 < |states| == |events| + 1
    requires k !in states[i].kanaries && k !in states[i + 1].kanaries && n in states[i + 1].endpoints
    ensures Stranded(states, events, i + 1, n, k) <==> n in states[i].endpoints && Stranded(states, events, i, n, k)
  {
    hide Strands;
    if Stranded(states, events, i + 1, n, k) {
      var j: nat :| StrandedBy(states, events, i + 1, j, n, k);
      StrandsLive(states[j], events[j], n, k);
      assert StrandedBy(states, events, i, j, n, k);
    }
    if n in states[i].endpoints && Stranded(states, events, i, n, k) {
      var j: nat :| StrandedBy(states, events, i, j, n, k);
      assert StrandedBy(states, events, i + 1, j, n, k);
    }
  }

  lemma StrandsLive(s: Store, e: CalmEvent, n: string, k: string)
    requires Strands(s, e, n, k)
    ensures k in s.kanaries && n in s.endpoints
  {
  }

  lemma StrandedNow(states: seq<Store>, events: seq<CalmEvent>, i: nat, n: string, k: string)
    requires i + 1 < |states| == |events| + 1
    requires k in states[i].kanaries && k !in states[i + 1].kanaries && n in states[i + 1].endpoints
    ensures Stranded(states, events, i + 1, n, k) <==> Strands(states[i], events[i], n, k)
  {
    hide Strands;
    if Stranded(states, events, i + 1, n, k) {
      var j: nat :| StrandedBy(states, events, i + 1, j, n, k);
      assert j == i;
    }
    if Strands(states[i], events[i], n, k) {
      assert StrandedBy(states, events, i + 1, i, n, k);
    }
  }

  /** The exact origin of dangling names in fault-free runs that start with empty
      lists: a list holds a name that is no Kanary's exactly when the last deletion of
      that Kanary left it there. */
  lemma {:induction false} DanglingNames(reserved: Reservations, printer: WeightPrinter, states: seq<Store>,
                                         events: seq<CalmEvent>, i: nat, n: string, k: string, watched: bool)
    requires CalmRun(reserved, printer, states, events, watched) && i < |states|
    requires CleanRefs(states[0].endpoints) && forall e :: e in states[0].endpoints ==> !ListsName(states[0], e, k)
    requires n in states[i].endpoints && k !in states[i].kanaries
    ensures ListsName(states[i], n, k) <==> Stranded(states, events, i, n, k)
    decreases i
  {
    hide Good, Allowed, Happen, Fresh, CleanRefs, ListsName, Strands, AfterDeletion, UndisturbedDeletion;
    if i == 0 {
    } else {
      var s, e := states[i - 1], events[i - 1];
      AlwaysGood(reserved, printer, states, events, i - 1, watched);
      AlwaysClean(reserved, printer, states, events, i - 1, watched);
      assert Occurs(reserved, printer, s, e, states[i], watched);
      if k in s.kanaries {
        OnlyDeletionEnds(reserved, printer, s, e, k, watched);
        DeletionStrands(printer, s, n, k, e.script);
        StrandedNow(states, events, i - 1, n, k);
      } else {
        AbsentNameStays(reserved, printer, s, e, n, k, watched);
        StrandedLater(states, events, i - 1, n, k);
        if n in s.endpoints {
          DanglingNames(reserved, printer, states, events, i - 1, n, k, watched);
        } else {
          NotListed(s, n, k);
        }
      }
    }
  }

  lemma NotListed(s: Store, n: string, k: string)
    requires n !in s.endpoints
    ensures !ListsName(s, n, k)
  {
  }

  /** While Endpoints objects persist and no status names a service twice, a deletion
      strands a name exactly where the routes of its Kanary have left the service. */
  lemma StrandedByLeavingRoutes(reserved: Reservations, printer: WeightPrinter, states: seq<Store>,
                                events: seq<CalmEvent>, i: nat, n: string, k: string)
    requires CalmRun(reserved, printer, states, events, true) && i < |events|
    requires events[i].DeleteKanary? && events[i].k == k && k in states[i].kanaries
    requires DistinctServices(states[i].kanaries[k].status.endpoints)
    ensures var es := states[i].kanaries[k].status.endpoints;
            Strands(states[i], events[i], n, k) <==> ListsName(states[i], n, k) && !Among(es, |es|, n)
  {
    AlwaysGood(reserved, printer, states, events, i, true);
    var s, es := states[i], states[i].kanaries[k].status.endpoints;
    assert Settled(reserved, printer, s, k, true);
    ReferencedGoesThrough(s.endpoints, k, es);
  }

  lemma ReferencedGoesThrough(m: EndpointsCache, k: string, es: seq<KanaryEndpointList>)
    requires NoneMalformed(m) && Referenced(m, k, es, |es|) && DistinctServices(es)
    ensures Stop(m, k, es, 0) == |es|
  {
    var i := Stop(m, k, es, 0);
    if i < |es| {
      assert !Among(es, i, es[i].serviceName);
      assert Strikable(m, k, es, i);
    }
  }

  // ---------- who sleeps on ----------

  /** While Endpoints objects persist, an update of a service wakes a Kanary whose
      status names it exactly when no stranded name comes before it in the list. */
  lemma WokenUnlessStranded(reserved: Reservations, printer: WeightPrinter, states: seq<Store>, events: seq<CalmEvent>,
                            i: nat, k: string, j: nat)
    requires CalmRun(reserved, printer, states, events, true) && i < |states| && k in states[i].kanaries
    requires CleanRefs(states[0].endpoints)
    requires forall e, d :: e in states[0].endpoints ==> !ListsName(states[0], e, d)
    requires j < |states[i].kanaries[k].status.endpoints|
    ensures var u, n := states[i], states[i].kanaries[k].status.endpoints[j].serviceName;
            && ListsName(u, n, k)
            && var names := u.endpoints[n].kanaryRef.Names();
               k in LivePrefix(names, u.kanaries.Keys)
               <==> forall p :: 0 <= p < FirstIndex(names, k) ==> !Stranded(states, events, i, n, names[p])
  {
    hide CalmRun, CleanRefs, Strands;
    UpdatesWakeListeners(reserved, printer, states, events, i, k, j);
    var u, n := states[i], states[i].kanaries[k].status.endpoints[j].serviceName;
    var names := u.endpoints[n].kanaryRef.Names();
    RunLengths(reserved, printer, states, events, true);
    forall p | 0 <= p < |names| ensures names[p] in u.kanaries <==> !Stranded(states, events, i, n, names[p]) {
      assert ListsName(u, n, names[p]);
      if names[p] !in u.kanaries {
        DanglingNames(reserved, printer, states, events, i, n, names[p], true);
      }
    }
    ComesUpFirst(names, u.kanaries.Keys, k);
  }

  lemma RunLengths(reserved: Reservations, printer: WeightPrinter, states: seq<Store>, events: seq<CalmEvent>, watched: bool)
    requires CalmRun(reserved, printer, states, events, watched)
    ensures |states| == |events| + 1
  {
  }

  lemma ComesUpFirst(names: seq<string>, live: set<string>, k: string)
    requires k in names && k in live
    ensures ComesUp(names, live, k) <==> forall p :: 0 <= p < FirstIndex(names, k) ==> names[p] in live
  {
    var f := FirstIndex(names, k);
    hide FirstIndex;
    if ComesUp(names, live, k) {
      var i :| 0 <= i < |names| && names[i] == k && forall j :: 0 <= j <= i ==> names[j] in live;
      forall j | 0 <= j < f ensures names[j] != k {
        assert names[j] in names[..f];
      }
    }
  }
}
