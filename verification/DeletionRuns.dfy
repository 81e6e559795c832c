/** The deletion handler over a whole Kanary: what it does to every kanaryRef list
    when undisturbed, whatever recent view its lister shows, and that under faults it
    keeps the invariant of all runs. */
module DeletionRuns {
  import opened KanaryTypes
  import opened Lists
  import opened EndpointDiff
  import opened ExpectedStatus
  import opened BackRefs
  import opened ApiStore
  import opened SyncProtocol
  import opened KanaryController
  import opened FaultyRuns
  import opened FaultyInvariant
  import opened FaultySafety
  import opened Views
  import opened FixedViews
  import NonInterference
  import CalmSync

  // ---------- what it leaves alone ----------

  /** Only k has gone from the lists; nothing else of an Endpoints object changed. */
  ghost predicate RefsStruck(k: string, m: EndpointsCache, n: EndpointsCache) {
    && m.Keys == n.Keys
    && forall e :: e in m ==> m[e].subsets == n[e].subsets && Struck(k, m[e].kanaryRef, n[e].kanaryRef)
  }

  lemma RefsStruckTransitive(k: string, m: EndpointsCache, n: EndpointsCache, p: EndpointsCache)
    requires RefsStruck(k, m, n) && RefsStruck(k, n, p)
    ensures RefsStruck(k, m, p)
  {
    forall e | e in m ensures m[e].subsets == p[e].subsets && Struck(k, m[e].kanaryRef, p[e].kanaryRef) {
      assert Struck(k, m[e].kanaryRef, n[e].kanaryRef) && Struck(k, n[e].kanaryRef, p[e].kanaryRef);
    }
  }

  /** Other names do not notice. */
  lemma RefsStruckAlike(k: string, m: EndpointsCache, n: EndpointsCache, j: string)
    requires RefsStruck(k, m, n) && j != k
    ensures NonInterference.EndpointsAlike(j, m, n)
  {
    forall e | e in m ensures NonInterference.SameEndpointsTo(j, m[e], n[e]) {
      assert Struck(k, m[e].kanaryRef, n[e].kanaryRef);
      OthersCounts(m[e].kanaryRef.Names(), k, j);
      OthersCounts(n[e].kanaryRef.Names(), k, j);
    }
  }

  // ---------- undisturbed, on a recent view ----------

  /** Every call of the handler from entry `next` on is honoured and sees versions that
      were in the store since it began; seen are those so far. */
  ghost predicate RecentDeletion(seen: set<Endpoints>, s: Store, ky: Kanary, next: nat, script: seq<Tick>)
    decreases |ky.status.endpoints| - next
  {
    next >= |ky.status.endpoints| || (
      && Shows(seen, s.endpoints, HeadTick(script))
      && var cache, service := HeadTick(script).cache.GetOr(s.endpoints), ky.status.endpoints[next].serviceName;
         service in cache && DeleteRef(cache[service].kanaryRef, ky.name).Deleted? ==>
           var refs := DeleteRef(cache[service].kanaryRef, ky.name).annotation;
           var a := UpdateEndpoints(s, cache[service].(kanaryRef := refs));
           a.reply.Some? ==>
             RecentDeletion(seen + a.store.endpoints.Values, a.store, ky, next + 1, TailTicks(script)))
  }

  /** The next service is shown as it is, or in a version that the handler has
      overwritten. */
  lemma ShownNow(seen: set<Endpoints>, m: EndpointsCache, es: seq<KanaryEndpointList>, next: nat, tick: Tick)
    requires Fits(seen, m, es, next) && Shows(seen, m, tick) && next < |es|
    ensures var view, service := tick.cache.GetOr(m), es[next].serviceName;
            && (service in view <==> service in m)
            && (service in m && view[service] != m[service] ==>
                  && Repeats(es, next) && view[service].name == service && view[service].version < m[service].version)
  {
  }

  lemma StrikePut(s: Store, service: string, k: string)
    requires NonInterference.EndpointsKeyed(s.endpoints) && Versioned(s)
    requires service in s.endpoints && DeleteRef(s.endpoints[service].kanaryRef, k).Deleted?
    ensures var ep := s.endpoints[service];
            var a := UpdateEndpoints(s, ep.(kanaryRef := DeleteRef(ep.kanaryRef, k).annotation));
            && a.reply.Some? && a.store == s.(rev := a.store.rev, endpoints := a.store.endpoints)
            && a.store.endpoints == s.endpoints[service := a.reply.value]
            && a.reply.value == ep.(kanaryRef := DeleteRef(ep.kanaryRef, k).annotation, version := a.store.rev)
            && ep.name == service && ep.version < a.store.rev
            && NonInterference.EndpointsKeyed(a.store.endpoints) && Versioned(a.store)
            && RefsStruck(k, s.endpoints, a.store.endpoints)
  {
    DeleteRefStrikes(s.endpoints[service].kanaryRef, k);
    hide DeleteRef, Others;
  }

  /** A round on an overwritten version changes nothing and ends the handler. */
  lemma StaleRound(seen: set<Endpoints>, s: Store, ky: Kanary, next: nat, script: seq<Tick>)
    requires next < |ky.status.endpoints| && Fits(seen, s.endpoints, ky.status.endpoints, next)
    requires Shows(seen, s.endpoints, HeadTick(script))
    requires var view := HeadTick(script).cache.GetOr(s.endpoints);
             var service := ky.status.endpoints[next].serviceName;
             service in s.endpoints && service in view && view[service] != s.endpoints[service]
    ensures Repeats(ky.status.endpoints, next)
    ensures var view := HeadTick(script).cache.GetOr(s.endpoints);
            var d := DeleteRef(view[ky.status.endpoints[next].serviceName].kanaryRef, ky.name);
            RunDeletion(s, ky, next, script) == (s, d.Panics?, !d.Panics?)
  {
    ShownNow(seen, s.endpoints, ky.status.endpoints, next, HeadTick(script));
    hide Fits, Shows, DeleteRef;
  }

  /** A round on a current version. */
  lemma CurrentRound(s: Store, ky: Kanary, next: nat, script: seq<Tick>)
    requires next < |ky.status.endpoints| && HeadTick(script).verdict.Honoured?
    requires var view := HeadTick(script).cache.GetOr(s.endpoints);
             var service := ky.status.endpoints[next].serviceName;
             (service in view <==> service in s.endpoints) && (service in view ==> view[service] == s.endpoints[service])
    ensures var service := ky.status.endpoints[next].serviceName;
            if service !in s.endpoints then RunDeletion(s, ky, next, script) == (s, false, true)
            else match DeleteRef(s.endpoints[service].kanaryRef, ky.name)
                 case DecodeError => RunDeletion(s, ky, next, script) == (s, false, true)
                 case Panics => RunDeletion(s, ky, next, script) == (s, true, false)
                 case Deleted(refs) =>
                   var a := UpdateEndpoints(s, s.endpoints[service].(kanaryRef := refs));
                   a.reply.Some? ==> RunDeletion(s, ky, next, script) == RunDeletion(a.store, ky, next + 1, TailTicks(script))
  {
    hide DeleteRef;
  }

  lemma RecentAfterStrike(seen: set<Endpoints>, s: Store, ky: Kanary, next: nat, script: seq<Tick>)
    requires RecentDeletion(seen, s, ky, next, script) && next < |ky.status.endpoints|
    requires NonInterference.EndpointsKeyed(s.endpoints) && Versioned(s)
    requires Fits(seen, s.endpoints, ky.status.endpoints, next)
    requires var view := HeadTick(script).cache.GetOr(s.endpoints);
             var service := ky.status.endpoints[next].serviceName;
             && service in s.endpoints && service in view && view[service] == s.endpoints[service]
             && DeleteRef(s.endpoints[service].kanaryRef, ky.name).Deleted?
    ensures var ep := s.endpoints[ky.status.endpoints[next].serviceName];
            var u := UpdateEndpoints(s, ep.(kanaryRef := DeleteRef(ep.kanaryRef, ky.name).annotation)).store;
            && RecentDeletion(seen + u.endpoints.Values, u, ky, next + 1, TailTicks(script))
            && Fits(seen + u.endpoints.Values, u.endpoints, ky.status.endpoints, next + 1)
  {
    var ep := s.endpoints[ky.status.endpoints[next].serviceName];
    StrikePut(s, ep.name, ky.name);
    var a := UpdateEndpoints(s, ep.(kanaryRef := DeleteRef(ep.kanaryRef, ky.name).annotation));
    hide DeleteRef, UpdateEndpoints, Fits, RefsStruck;
    FitsAfterPut(seen, s.endpoints, ky.status.endpoints, next, a.reply.value);
  }

  /** Undisturbed, the handler writes only kanaryRef lists, and of these only its own
      Kanary's name goes. */
  lemma {:induction false} DeletionStrikes(seen: set<Endpoints>, s: Store, ky: Kanary, next: nat, script: seq<Tick>)
    requires NonInterference.EndpointsKeyed(s.endpoints) && Versioned(s)
    requires Fits(seen, s.endpoints, ky.status.endpoints, next) && RecentDeletion(seen, s, ky, next, script)
    ensures var u := RunDeletion(s, ky, next, script).0;
            && u == s.(rev := u.rev, endpoints := u.endpoints)
            && NonInterference.EndpointsKeyed(u.endpoints) && Versioned(u)
            && RefsStruck(ky.name, s.endpoints, u.endpoints)
    decreases |ky.status.endpoints| - next
  {
    if next >= |ky.status.endpoints| {
    } else {
      var view, service := HeadTick(script).cache.GetOr(s.endpoints), ky.status.endpoints[next].serviceName;
      ShownNow(seen, s.endpoints, ky.status.endpoints, next, HeadTick(script));
      assert Shows(seen, s.endpoints, HeadTick(script));
      hide RunDeletion, RecentDeletion, Fits, UpdateEndpoints, DeleteRef;
      if service in s.endpoints && view[service] != s.endpoints[service] {
        StaleRound(seen, s, ky, next, script);
      } else {
        CurrentRound(s, ky, next, script);
        if service in s.endpoints && DeleteRef(s.endpoints[service].kanaryRef, ky.name).Deleted? {
          StrikePut(s, service, ky.name);
          RecentAfterStrike(seen, s, ky, next, script);
          var ep := s.endpoints[service];
          var u := UpdateEndpoints(s, ep.(kanaryRef := DeleteRef(ep.kanaryRef, ky.name).annotation)).store;
          hide RefsStruck, NonInterference.EndpointsKeyed, Versioned;
          DeletionStrikes(seen + u.endpoints.Values, u, ky, next + 1, TailTicks(script));
          RefsStruckTransitive(ky.name, s.endpoints, u.endpoints,
                               RunDeletion(u, ky, next + 1, TailTicks(script)).0.endpoints);
        }
      }
    }
  }

  // ---------- its whole outcome ----------

  /** Every object is stored under its name, and no list has duplicates. */
  ghost predicate CleanRefs(m: EndpointsCache) {
    forall n :: n in m ==> m[n].name == n && NoDup(m[n].kanaryRef.Names())
  }

  /** The service has a readable list. */
  predicate Readable(m: EndpointsCache, service: string) {
    service in m && m[service].kanaryRef.Refs?
  }

  /** Entry j can be struck: the list is readable and holds k, and no earlier entry
      was for the same service. */
  ghost predicate Strikable(m: EndpointsCache, k: string, es: seq<KanaryEndpointList>, j: nat) {
    && j < |es| && Readable(m, es[j].serviceName)
    && k in m[es[j].serviceName].kanaryRef.Names() && !Among(es, j, es[j].serviceName)
  }

  /** The entry the handler stops at, |es| if it comes to the end. */
  ghost function Stop(m: EndpointsCache, k: string, es: seq<KanaryEndpointList>, next: nat): (i: nat)
    requires next <= |es|
    ensures next <= i <= |es| && !Strikable(m, k, es, i)
    ensures forall j :: next <= j < i ==> Strikable(m, k, es, j)
    decreases |es| - next
  {
    if next < |es| && Strikable(m, k, es, next) then Stop(m, k, es, next + 1) else next
  }

  /** n is m with k struck from the lists of the first `next` services of es. */
  ghost predicate StruckUpTo(k: string, es: seq<KanaryEndpointList>, next: nat, m: EndpointsCache, n: EndpointsCache) {
    m.Keys == n.Keys && forall e :: e in m ==> StruckIf(k, m[e], n[e], Among(es, next, e))
  }

  ghost predicate StruckIf(k: string, a: Endpoints, b: Endpoints, struck: bool) {
    && b.name == a.name && b.subsets == a.subsets
    && if struck then a.kanaryRef.Refs? && b.kanaryRef == Refs(Others(a.kanaryRef.Names(), k))
       else b.version == a.version && b.kanaryRef == a.kanaryRef
  }

  /** What the handler leaves and answers, from entry `next` on. It stops in an error if
      the list is missing or unreadable, and in a panic if the Kanary is not in it; at a
      service it has struck before it panics if its lister shows its own write, and
      errs on the conflict if it still shows the version before. */
  ghost predicate Outcome(m: EndpointsCache, k: string, es: seq<KanaryEndpointList>, next: nat,
                          answer: (Store, bool, bool), stale: bool)
    requires next <= |es|
  {
    var (u, panicked, err) := answer;
    var i := Stop(m, k, es, next);
    && StruckUpTo(k, es, i, m, u.endpoints)
    && (err <==> i < |es| && (!Readable(m, es[i].serviceName) || (Repeats(es, i) && stale)))
    && (panicked <==> i < |es| && Readable(m, es[i].serviceName) && !(Repeats(es, i) && stale))
  }

  lemma StrikeNext(seen: set<Endpoints>, s: Store, m: EndpointsCache, ky: Kanary, next: nat, script: seq<Tick>)
    returns (u: Store)
    requires CleanRefs(m) && StruckUpTo(ky.name, ky.status.endpoints, next, m, s.endpoints)
    requires Strikable(m, ky.name, ky.status.endpoints, next)
    requires NonInterference.EndpointsKeyed(s.endpoints) && Versioned(s)
    requires Fits(seen, s.endpoints, ky.status.endpoints, next) && RecentDeletion(seen, s, ky, next, script)
    ensures RunDeletion(s, ky, next, script) == RunDeletion(u, ky, next + 1, TailTicks(script))
    ensures StruckUpTo(ky.name, ky.status.endpoints, next + 1, m, u.endpoints)
    ensures NonInterference.EndpointsKeyed(u.endpoints) && Versioned(u)
    ensures Fits(seen + u.endpoints.Values, u.endpoints, ky.status.endpoints, next + 1)
    ensures RecentDeletion(seen + u.endpoints.Values, u, ky, next + 1, TailTicks(script))
    ensures forall e :: e in s.endpoints && e != ky.status.endpoints[next].serviceName ==>
              e in u.endpoints && u.endpoints[e] == s.endpoints[e]
  {
    var es, service := ky.status.endpoints, ky.status.endpoints[next].serviceName;
    StrikableNow(s, m, ky.name, es, next);
    ShownNow(seen, s.endpoints, es, next, HeadTick(script)) by { ShownFirst(seen, s, ky, next, script); }
    var ep := s.endpoints[service];
    hide *;
    CurrentRound(s, ky, next, script) by { ShownFirst(seen, s, ky, next, script); }
    StrikePut(s, service, ky.name);
    RecentAfterStrike(seen, s, ky, next, script);
    var a := UpdateEndpoints(s, ep.(kanaryRef := DeleteRef(ep.kanaryRef, ky.name).annotation));
    u := a.store;
    StruckOneMore(u.endpoints, s.endpoints, m, ky.name, es, next, a.reply.value);
  }

  lemma StrikableNow(s: Store, m: EndpointsCache, k: string, es: seq<KanaryEndpointList>, next: nat)
    requires CleanRefs(m) && StruckUpTo(k, es, next, m, s.endpoints) && Strikable(m, k, es, next)
    requires NonInterference.EndpointsKeyed(s.endpoints)
    ensures var service := es[next].serviceName;
            && service in m && m[service].kanaryRef.Refs? && service in s.endpoints && !Among(es, next, service)
            && s.endpoints[service].name == service
            && DeleteRef(s.endpoints[service].kanaryRef, k) == Deleted(Refs(Others(m[service].kanaryRef.names, k)))
  {
    var service := es[next].serviceName;
    assert StruckIf(k, m[service], s.endpoints[service], false);
    DeleteRefIsOthers(m[service].kanaryRef.names, k);
    hide NoDup, DeleteRef, Others, Among;
  }

  lemma StruckOneMore(p: EndpointsCache, n: EndpointsCache, m: EndpointsCache, k: string, es: seq<KanaryEndpointList>,
                      next: nat, ep: Endpoints)
    requires next < |es| && StruckUpTo(k, es, next, m, n) && !Among(es, next, es[next].serviceName)
    requires es[next].serviceName in m && m[es[next].serviceName].kanaryRef.Refs?
    requires var service := es[next].serviceName;
             && ep.name == n[service].name && ep.subsets == n[service].subsets
             && ep.kanaryRef == Refs(Others(m[service].kanaryRef.names, k))
             && p == n[service := ep]
    ensures StruckUpTo(k, es, next + 1, m, p)
  {
    assert StruckIf(k, m[es[next].serviceName], n[es[next].serviceName], false);
    hide Others, Among;
    forall e | e in m ensures StruckIf(k, m[e], p[e], Among(es, next + 1, e)) {
      AmongOneMore(es, next, e);
      assert StruckIf(k, m[e], n[e], Among(es, next, e));
    }
  }

  /** The versions seen are those of m and the current ones. */
  ghost predicate SeenBefore(seen: set<Endpoints>, m: EndpointsCache, n: EndpointsCache) {
    forall e :: e in seen ==> e.name in n && (e == n[e.name] || (e.name in m && e == m[e.name]))
  }

  lemma SeenBeforeLater(seen: set<Endpoints>, k: string, es: seq<KanaryEndpointList>, next: nat, m: EndpointsCache,
                        n: EndpointsCache, p: EndpointsCache)
    requires SeenBefore(seen, m, n) && StruckUpTo(k, es, next, m, n) && StruckUpTo(k, es, next + 1, m, p)
    requires next < |es| && es[next].serviceName in m && !Among(es, next, es[next].serviceName)
    requires NonInterference.EndpointsKeyed(p) && forall e :: e in n && e != es[next].serviceName ==> e in p && p[e] == n[e]
    ensures SeenBefore(seen + p.Values, m, p)
  {
    var service := es[next].serviceName;
    assert StruckIf(k, m[service], n[service], false);
    forall e | e in seen + p.Values ensures e.name in p && (e == p[e.name] || (e.name in m && e == m[e.name])) {
      if e in p.Values {
        var x :| x in p && p[x] == e;
      } else if e.name == service {
        assert n[service] == m[service];
      }
    }
  }

  lemma StopsAtRepeat(seen: set<Endpoints>, s: Store, m: EndpointsCache, ky: Kanary, next: nat, script: seq<Tick>)
    returns (stale: bool)
    requires StruckUpTo(ky.name, ky.status.endpoints, next, m, s.endpoints) && Repeats(ky.status.endpoints, next)
    requires forall j: nat :: j < next ==> Strikable(m, ky.name, ky.status.endpoints, j)
    requires Fits(seen, s.endpoints, ky.status.endpoints, next) && SeenBefore(seen, m, s.endpoints)
    requires Shows(seen, s.endpoints, HeadTick(script))
    ensures Readable(m, ky.status.endpoints[next].serviceName)
    ensures RunDeletion(s, ky, next, script) == (s, !stale, stale)
    ensures HeadTick(script).cache.None? ==> !stale
    ensures HeadTick(script).cache == Some(m) ==> stale
  {
    var es, service := ky.status.endpoints, ky.status.endpoints[next].serviceName;
    var j: nat :| j < next && es[j].serviceName == service;
    assert Strikable(m, ky.name, es, j);
    var view := HeadTick(script).cache.GetOr(s.endpoints);
    ShownNow(seen, s.endpoints, es, next, HeadTick(script));
    assert StruckIf(ky.name, m[service], s.endpoints[service], true);
    OthersCounts(m[service].kanaryRef.Names(), ky.name, ky.name);
    assert ky.name !in s.endpoints[service].kanaryRef.Names();
    stale := view[service] != s.endpoints[service];
    hide Others, Among, FirstIndex, Fits, RunDeletion;
    if stale {
      assert view[service] in seen && view[service] == m[service];
      StaleRound(seen, s, ky, next, script);
    } else {
      CurrentRound(s, ky, next, script);
    }
  }

  lemma StopsHere(seen: set<Endpoints>, s: Store, m: EndpointsCache, ky: Kanary, next: nat, script: seq<Tick>)
    requires next < |ky.status.endpoints| && StruckUpTo(ky.name, ky.status.endpoints, next, m, s.endpoints)
    requires !Strikable(m, ky.name, ky.status.endpoints, next) && !Repeats(ky.status.endpoints, next)
    requires Fits(seen, s.endpoints, ky.status.endpoints, next) && Shows(seen, s.endpoints, HeadTick(script))
    ensures var readable := Readable(m, ky.status.endpoints[next].serviceName);
            RunDeletion(s, ky, next, script) == (s, readable, !readable)
  {
    var es, service := ky.status.endpoints, ky.status.endpoints[next].serviceName;
    ShownNow(seen, s.endpoints, es, next, HeadTick(script));
    if service in m {
      assert StruckIf(ky.name, m[service], s.endpoints[service], Among(es, next, service));
    }
    hide Others, Among, FirstIndex, Fits, RunDeletion;
    CurrentRound(s, ky, next, script);
  }

  lemma ShownFirst(seen: set<Endpoints>, s: Store, ky: Kanary, next: nat, script: seq<Tick>)
    requires next < |ky.status.endpoints| && RecentDeletion(seen, s, ky, next, script)
    ensures Shows(seen, s.endpoints, HeadTick(script))
  {
  }

  lemma NothingLeft(s: Store, ky: Kanary, next: nat, script: seq<Tick>)
    requires next >= |ky.status.endpoints|
    ensures RunDeletion(s, ky, next, script) == (s, false, false)
  {
  }

  lemma StrikableIsNoRepeat(m: EndpointsCache, k: string, es: seq<KanaryEndpointList>, j: nat)
    requires Strikable(m, k, es, j)
    ensures j < |es| && es[j].serviceName in m && !Among(es, j, es[j].serviceName)
  {
  }

  lemma {:induction false} DeletionFrom(seen: set<Endpoints>, s: Store, m: EndpointsCache, ky: Kanary, next: nat,
                                        script: seq<Tick>) returns (stale: bool)
    requires CleanRefs(m) && next <= |ky.status.endpoints|
    requires StruckUpTo(ky.name, ky.status.endpoints, next, m, s.endpoints)
    requires forall j: nat :: j < next ==> Strikable(m, ky.name, ky.status.endpoints, j)
    requires NonInterference.EndpointsKeyed(s.endpoints) && Versioned(s) && SeenBefore(seen, m, s.endpoints)
    requires Fits(seen, s.endpoints, ky.status.endpoints, next) && RecentDeletion(seen, s, ky, next, script)
    ensures Outcome(m, ky.name, ky.status.endpoints, next, RunDeletion(s, ky, next, script), stale)
    ensures UpToDate(script) ==> !stale
    ensures var es := ky.status.endpoints;
            var i := Stop(m, ky.name, es, next);
            Fixed(script, m) && |script| >= |es| - next && i < |es| && Repeats(es, i) ==> stale
    decreases |ky.status.endpoints| - next
  {
    hide CleanRefs, StruckUpTo, Strikable, Readable, RunDeletion, RecentDeletion, Fits, Shows, SeenBefore, Repeats, Fixed,
         UpToDate, Versioned, NonInterference.EndpointsKeyed;
    var es := ky.status.endpoints;
    if Fixed(script, m) {
      FixedTail(script, m);
    }
    if UpToDate(script) {
      UpToDateTail(script);
    }
    if next == |es| {
      NothingLeft(s, ky, next, script);
      stale := false;
    } else if Strikable(m, ky.name, es, next) {
      var u := StrikeNext(seen, s, m, ky, next, script);
      StrikableIsNoRepeat(m, ky.name, es, next);
      SeenBeforeLater(seen, ky.name, es, next, m, s.endpoints, u.endpoints);
      stale := DeletionFrom(seen + u.endpoints.Values, u, m, ky, next + 1, TailTicks(script));
    } else {
      ShownFirst(seen, s, ky, next, script);
      if Repeats(es, next) {
        stale := StopsAtRepeat(seen, s, m, ky, next, script);
      } else {
        StopsHere(seen, s, m, ky, next, script);
        stale := false;
      }
    }
  }

  /** A deletion handler that begins in store s and sees recent views throughout. */
  ghost predicate UndisturbedDeletion(s: Store, ky: Kanary, script: seq<Tick>) {
    && NonInterference.EndpointsKeyed(s.endpoints) && Versioned(s)
    && RecentDeletion(s.endpoints.Values, s, ky, 0, script)
  }

  lemma BeginsFresh(s: Store, es: seq<KanaryEndpointList>)
    requires NonInterference.EndpointsKeyed(s.endpoints)
    ensures Fits(s.endpoints.Values, s.endpoints, es, 0) && SeenBefore(s.endpoints.Values, s.endpoints, s.endpoints)
    ensures forall k :: StruckUpTo(k, es, 0, s.endpoints, s.endpoints)
  {
  }

  /** Undisturbed, the handler takes its Kanary out of the lists of the recorded
      services up to the first entry that cannot be struck, and of no others, whatever
      recent views it sees. There it ends in an error if the list is missing or
      unreadable, and panics if the Kanary is not in the list; if it has struck the
      service before, it panics on an up-to-date lister and errs on a fixed one. */
  lemma DeletionOutcome(s: Store, ky: Kanary, script: seq<Tick>) returns (stale: bool)
    requires CleanRefs(s.endpoints) && UndisturbedDeletion(s, ky, script)
    ensures Outcome(s.endpoints, ky.name, ky.status.endpoints, 0, RunDeletion(s, ky, 0, script), stale)
    ensures UpToDate(script) ==> !stale
    ensures var es := ky.status.endpoints;
            Fixed(script, s.endpoints) && |script| >= |es| && Repeats(es, Stop(s.endpoints, ky.name, es, 0)) ==> stale
  {
    BeginsFresh(s, ky.status.endpoints);
    hide RunDeletion, Outcome, CleanRefs, Fits, SeenBefore, StruckUpTo, RecentDeletion, Versioned, UpToDate, Fixed;
    StopsWithin(s.endpoints, ky.name, ky.status.endpoints);
    stale := DeletionFrom(s.endpoints.Values, s, s.endpoints, ky, 0, script);
  }

  lemma StopsWithin(m: EndpointsCache, k: string, es: seq<KanaryEndpointList>)
    ensures Repeats(es, Stop(m, k, es, 0)) ==> Stop(m, k, es, 0) < |es|
  {
  }

  /** Deleting a Kanary that is listed everywhere its status says: the handler comes to
      its end and takes it out of every list exactly when no service is named twice.
      Otherwise it stops at the first repeated one, in a panic if its lister shows its
      own write and in an error if it is fixed. All other names stay where they are. */
  lemma DeletionCompletes(s: Store, ky: Kanary, script: seq<Tick>)
    requires CleanRefs(s.endpoints) && CalmSync.NoneMalformed(s.endpoints) && UndisturbedDeletion(s, ky, script)
    requires CalmSync.Referenced(s.endpoints, ky.name, ky.status.endpoints, |ky.status.endpoints|)
    ensures var es := ky.status.endpoints;
            var (u, panicked, err) := RunDeletion(s, ky, 0, script);
            && (!panicked && !err <==> DistinctServices(es))
            && (!panicked && !err ==> StruckUpTo(ky.name, es, |es|, s.endpoints, u.endpoints))
            && (UpToDate(script) ==> !err)
            && (Fixed(script, s.endpoints) && |script| >= |es| ==> !panicked)
            && RefsStruck(ky.name, s.endpoints, u.endpoints)
  {
    var es := ky.status.endpoints;
    StopMeansRepeat(s.endpoints, ky.name, es);
    hide *;
    var stale := DeletionOutcome(s, ky, script);
    DeletionStrikes(s.endpoints.Values, s, ky, 0, script) by { UndisturbedParts(s, ky, script); }
    OutcomeParts(s.endpoints, ky.name, es, RunDeletion(s, ky, 0, script), stale);
  }

  lemma UndisturbedParts(s: Store, ky: Kanary, script: seq<Tick>)
    requires UndisturbedDeletion(s, ky, script)
    ensures NonInterference.EndpointsKeyed(s.endpoints) && Versioned(s)
    ensures RecentDeletion(s.endpoints.Values, s, ky, 0, script)
    ensures Fits(s.endpoints.Values, s.endpoints, ky.status.endpoints, 0)
  {
    BeginsFresh(s, ky.status.endpoints);
  }

  /** For a Kanary that is listed everywhere the only stop is a repeated service. */
  lemma StopMeansRepeat(m: EndpointsCache, k: string, es: seq<KanaryEndpointList>)
    requires CalmSync.NoneMalformed(m) && CalmSync.Referenced(m, k, es, |es|)
    ensures var i := Stop(m, k, es, 0);
            && (i < |es| ==> Readable(m, es[i].serviceName) && Repeats(es, i))
            && (i == |es| <==> DistinctServices(es))
  {
    var i := Stop(m, k, es, 0);
    hide Stop;
    DistinctMeansNoRepeat(es);
    if i < |es| {
      assert Readable(m, es[i].serviceName) && Repeats(es, i);
    } else {
      forall j: nat ensures !Repeats(es, j) {
        assert j < |es| ==> Strikable(m, k, es, j);
      }
    }
  }

  lemma OutcomeParts(m: EndpointsCache, k: string, es: seq<KanaryEndpointList>, answer: (Store, bool, bool), stale: bool)
    requires Outcome(m, k, es, 0, answer, stale)
    ensures var i := Stop(m, k, es, 0);
            && i <= |es| && StruckUpTo(k, es, i, m, answer.0.endpoints)
            && (!answer.1 && !answer.2 <==> i == |es|)
            && (i < |es| && Readable(m, es[i].serviceName) && Repeats(es, i) ==> answer.2 == stale && answer.1 == !stale)
  {
    hide StruckUpTo, Stop, Repeats;
  }

  /** The panic can be reached: a sync that crashes after recording its endpoints and
      before adding itself to the first list leaves a Kanary whose deletion panics
      as soon as that list names another Kanary. */
  lemma CrashBeforeRefsPanics(s: Store, ky: Kanary, expected: seq<KanaryEndpointList>, other: string)
    requires ky.name in s.kanaries && s.kanaries[ky.name] == ky
    requires expected != [] && expected[0].serviceName in s.endpoints
    requires var names := s.endpoints[expected[0].serviceName].kanaryRef.Names(); other in names && ky.name !in names
    requires !s.endpoints[expected[0].serviceName].kanaryRef.Malformed?
    ensures var (u, t) := Step(s, RecordEndpoints(ky, expected), CALM);
            && t.AddRefs? && ky.name in u.kanaries
            && RunDeletion(u, u.kanaries[ky.name], 0, []) == (u, true, false)
  {
    var (u, t) := Step(s, RecordEndpoints(ky, expected), CALM);
    hide UpdateEndpoints;
    assert u.endpoints == s.endpoints && u.kanaries[ky.name].status.endpoints == expected;
  }

  // ---------- under faults ----------

  /** The handler's calls as events of the faulty runs. */
  ghost function UnrefAll(w: World, ky: Kanary, next: nat, script: seq<Tick>): World
    decreases |ky.status.endpoints| - next
  {
    if next >= |ky.status.endpoints| then w
    else
      var tick := HeadTick(script);
      var cache := tick.cache.GetOr(w.store.endpoints);
      var service := ky.status.endpoints[next].serviceName;
      if service !in cache || !DeleteRef(cache[service].kanaryRef, ky.name).Deleted? then w
      else
        var refs := DeleteRef(cache[service].kanaryRef, ky.name).annotation;
        var a := Served(tick.verdict, w.store, UpdateEndpoints(w.store, cache[service].(kanaryRef := refs)));
        var w1 := ApplyUnref(w, ky.name, cache[service], tick.verdict);
        if a.reply.None? then w1 else UnrefAll(w1, ky, next + 1, TailTicks(script))
  }

  /** Whatever faults and stale caches the handler meets, what it leaves in the
      store is reached by deletion events of its own Kanary only, and the invariant
      of the faulty runs still holds. */
  lemma {:induction false} DeletionUnderFaults(reserved: Reservations, w: World, ky: Kanary, next: nat, script: seq<Tick>)
    requires Inv(reserved, w) && ScriptFromPast(script, w.pastEndpoints)
    ensures var u := UnrefAll(w, ky, next, script);
            u.store == RunDeletion(w.store, ky, next, script).0 && Inv(reserved, u)
    decreases |ky.status.endpoints| - next
  {
    hide Inv, DeleteRef, ScriptFromPast, ApplyUnref, UpdateEndpoints, Served;
    if next >= |ky.status.endpoints| {
    } else {
      var tick := HeadTick(script);
      var cache := tick.cache.GetOr(w.store.endpoints);
      var service := ky.status.endpoints[next].serviceName;
      ListerShowsPast(reserved, w, script);
      NextTick(script, w.pastEndpoints, w.pastEndpoints);
      if service in cache && DeleteRef(cache[service].kanaryRef, ky.name).Deleted? {
        var w1 := ApplyUnref(w, ky.name, cache[service], tick.verdict);
        UnrefKeepsInv(reserved, w, ky.name, cache[service], tick.verdict);
        UnrefStore(w, ky.name, cache[service], tick.verdict);
        NextTick(script, w.pastEndpoints, w1.pastEndpoints);
        DeletionUnderFaults(reserved, w1, ky, next + 1, TailTicks(script));
      }
    }
  }

  lemma ListerShowsPast(reserved: Reservations, w: World, script: seq<Tick>)
    requires Inv(reserved, w) && ScriptFromPast(script, w.pastEndpoints)
    ensures var cache := HeadTick(script).cache.GetOr(w.store.endpoints);
            forall n :: n in cache ==> cache[n] in w.pastEndpoints
  {
    NextTick(script, w.pastEndpoints, w.pastEndpoints);
  }

  lemma UnrefStore(w: World, k: string, seen: Endpoints, verdict: Verdict)
    requires DeleteRef(seen.kanaryRef, k).Deleted?
    ensures var refs := DeleteRef(seen.kanaryRef, k).annotation;
            var w1 := ApplyUnref(w, k, seen, verdict);
            && w1.store == Served(verdict, w.store, UpdateEndpoints(w.store, seen.(kanaryRef := refs))).store
            && w.pastEndpoints <= w1.pastEndpoints
  {
  }
}
