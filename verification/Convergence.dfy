/** Rounds of fault-free syncs, in any order and with repetitions and whatever recent
    views they see, reach a common fixpoint: afterwards no sync writes anything. */
module Convergence {
  import opened KanaryTypes
  import opened Decimal
  import opened EndpointDiff
  import opened ExpectedStatus
  import opened ConfigText
  import opened ApiStore
  import opened SyncProtocol
  import opened NonInterference
  import opened CalmSync
  import opened Views
  import opened CalmRuns

  /** One sync of a round, and what its calls meet. */
  datatype Turn = Turn(k: string, script: seq<Tick>)

  ghost function SyncAll(printer: WeightPrinter, s: Store, turns: seq<Turn>): Store {
    if turns == [] then s
    else
      var last := turns[|turns| - 1];
      SyncSeeing(printer, SyncAll(printer, s, turns[..|turns| - 1]), last.k, last.script)
  }

  /** Every sync of the round sees recent views. */
  ghost predicate AllRecent(printer: WeightPrinter, s: Store, turns: seq<Turn>) {
    turns == [] || (
      var init, last := turns[..|turns| - 1], turns[|turns| - 1];
      AllRecent(printer, s, init) && RecentSync(printer, SyncAll(printer, s, init), last.k, last.script))
  }

  /** How often the round syncs k, a sync that its view cannot stop counting twice. */
  ghost function Syncs(printer: WeightPrinter, s: Store, turns: seq<Turn>, k: string): nat {
    if turns == [] then 0
    else
      var init, last := turns[..|turns| - 1], turns[|turns| - 1];
      Syncs(printer, s, init, k)
      + if last.k != k then 0 else if SeesThrough(printer, SyncAll(printer, s, init), k, last.script) then 2 else 1
  }

  // ---------- one Kanary ----------

  /** Stopped at a repeated service by its last sync. */
  ghost predicate Stopped(reserved: Reservations, printer: WeightPrinter, s: Store, k: string) {
    exists exp, next :: Paused(reserved, printer, s, k, exp, next, false)
  }

  /** Where k is after n of its syncs. */
  ghost predicate Phase(reserved: Reservations, printer: WeightPrinter, s: Store, k: string, n: nat) {
    || Quiet(printer, s, k)
    || (n == 0 && Settled(reserved, printer, s, k, false))
    || (n <= 1 && Stopped(reserved, printer, s, k))
  }

  /** A sync from a boundary. */
  lemma SettledTurn(reserved: Reservations, printer: WeightPrinter, s: Store, k: string, script: seq<Tick>)
    requires Sound(s) && Settled(reserved, printer, s, k, false) && RecentSync(printer, s, k, script)
    ensures var u := SyncSeeing(printer, s, k, script);
            && Sound(u) && (Quiet(printer, u, k) || Stopped(reserved, printer, u, k))
            && (SeesThrough(printer, s, k, script) ==> Quiet(printer, u, k))
  {
    var u, routes := SyncSeeing(printer, s, k, script), s.kanaries[k].spec.routes;
    SettledWithin(reserved, printer, s, k, false);
    OutcomeOnAnyView(reserved, printer, s, k, script, false);
    RecentSyncKeepsOthers(printer, s, k, script, Destinations(s, k));
    SameExpectation(routes, s.endpoints, u.endpoints);
    hide Start, Run, RecentSync, Settled, Destinations, ExpectedOf, Ended, Paused, WellKeyed, NoneMalformed, NoRepeat,
         OthersKept, Quiet, SeesThrough, Versioned;
    if ExpectedOf(routes, s.endpoints).None? {
      QuietWithoutExpectation(printer, u, k);
    } else {
      var exp := ExpectedOf(routes, s.endpoints).value;
      if SeesThrough(printer, s, k, script) {
        SeesThroughIsSync(printer, s, k, script);
        SyncOutcome(reserved, printer, s, k, false);
      }
      if Ended(reserved, printer, u, k, exp, false) {
        EndedMeansQuiet(reserved, printer, u, k, exp, false);
      }
    }
  }

  /** A sync after one that has stopped. */
  lemma StoppedTurn(reserved: Reservations, printer: WeightPrinter, s: Store, k: string, script: seq<Tick>)
    requires Sound(s) && Stopped(reserved, printer, s, k) && RecentSync(printer, s, k, script)
    ensures Sound(SyncSeeing(printer, s, k, script)) && Quiet(printer, SyncSeeing(printer, s, k, script), k)
  {
    var exp, next :| Paused(reserved, printer, s, k, exp, next, false);
    hide Paused, RecentSync, SyncSeeing, Ended, Quiet, WellKeyed, NoneMalformed, Versioned;
    SyncAfterPause(reserved, printer, s, k, exp, next, script, false);
  }

  /** A sync whose Kanary is quiet changes nothing; any other works within the
      destinations of its Kanary. */
  lemma TurnKeepsOthers(reserved: Reservations, printer: WeightPrinter, s: Store, k: string, n: nat, script: seq<Tick>)
    returns (ds: set<string>)
    requires Sound(s) && Phase(reserved, printer, s, k, n) && RecentSync(printer, s, k, script)
    ensures OthersKept(k, ds, s, SyncSeeing(printer, s, k, script))
    ensures forall d :: d in ds ==> d in reserved && reserved[d] == k
  {
    hide RecentSync, OthersKept, Quiet, Settled, NoneMalformed, Versioned, Paused;
    if Quiet(printer, s, k) {
      ds := {};
      QuietSync(printer, s, k, script);
      KeptReflexive(k, ds, s);
    } else {
      ds := Destinations(s, k);
      if Settled(reserved, printer, s, k, false) {
        SettledWithin(reserved, printer, s, k, false);
      } else {
        var exp, next :| Paused(reserved, printer, s, k, exp, next, false);
        PausedParts(reserved, printer, s, k, exp, next, false);
        StoppedWithin(reserved, s, k);
      }
      hide WellKeyed, Destinations;
      RecentSyncKeepsOthers(printer, s, k, script, ds);
    }
  }

  lemma StoppedWithin(reserved: Reservations, s: Store, k: string)
    requires WellKeyed(s) && k in s.kanaries && SpecAllowed(reserved, k, s.kanaries[k].spec)
    requires RestAgrees(reserved, s.deployments, s.rolls, s.services, k, s.kanaries[k])
    ensures Within(s.kanaries[k], Destinations(s, k))
    ensures forall d :: d in Destinations(s, k) ==> d in reserved && reserved[d] == k
  {
    hide ProxyPresent, ProxyAbsent, NoService;
  }

  lemma OwnTurn(reserved: Reservations, printer: WeightPrinter, s: Store, k: string, n: nat, script: seq<Tick>)
    requires Sound(s) && Phase(reserved, printer, s, k, n) && RecentSync(printer, s, k, script)
    ensures var u := SyncSeeing(printer, s, k, script);
            Sound(u) && Phase(reserved, printer, u, k, n + if SeesThrough(printer, s, k, script) then 2 else 1)
  {
    hide Sound, Quiet, Settled, Stopped, RecentSync, SeesThrough;
    if Quiet(printer, s, k) {
      QuietSync(printer, s, k, script);
    } else if Stopped(reserved, printer, s, k) {
      StoppedTurn(reserved, printer, s, k, script);
    } else {
      SettledTurn(reserved, printer, s, k, script);
    }
  }

  // ---------- the others ----------

  lemma QuietStays(printer: WeightPrinter, s: Store, u: Store, j: string, ds: set<string>, k: string)
    requires Quiet(printer, s, k) && OthersKept(j, ds, s, u) && j != k
    ensures Quiet(printer, u, k)
  {
    OthersLookAlike(j, ds, s, u, k, {});
    hide Start, OthersKept;
    StartAlike(printer, s, u, k);
  }

  lemma ConfigStays(printer: WeightPrinter, s: Store, u: Store, k: string, es: seq<KanaryEndpointList>)
    requires ConfigHolds(printer, s.configMaps, s.configWrites, s.rolls, k, es, 0)
    requires ConfigMapAlike(ConfigMapName(k), s.configMaps, s.configWrites, u.configMaps, u.configWrites)
    requires DeploymentAlike(ProxyName(k), s.deployments, s.rolls, u.deployments, u.rolls)
    ensures ConfigHolds(printer, u.configMaps, u.configWrites, u.rolls, k, es, 0)
  {
    hide ConfigFor, ConfigMapName, ProxyName, Count;
  }

  lemma RestStays(reserved: Reservations, s: Store, u: Store, j: string, ds: set<string>, k: string, ky: Kanary)
    requires RestAgrees(reserved, s.deployments, s.rolls, s.services, k, ky)
    requires DeploymentAlike(ProxyName(k), s.deployments, s.rolls, u.deployments, u.rolls)
    requires ServicesKept(ds, s.services, u.services) && j != k && forall d :: d in ds ==> d in reserved && reserved[d] == j
    ensures RestAgrees(reserved, u.deployments, u.rolls, u.services, k, ky)
  {
    ServicesOfOther(reserved, ds, s.services, u.services, j, k);
    hide ServicesKept, NoService, ServicePresent, ProxyName, Count, Itoa, Wrap64;
  }

  lemma StoppedStays(reserved: Reservations, printer: WeightPrinter, s: Store, u: Store, j: string, ds: set<string>,
                     k: string)
    requires Stopped(reserved, printer, s, k) && Sound(u) && OthersKept(j, ds, s, u) && j != k
    requires forall d :: d in ds ==> d in reserved && reserved[d] == j
    ensures Stopped(reserved, printer, u, k)
  {
    hide Paused, ConfigHolds, RestAgrees, Referenced, SpecAllowed, ExpectedOf, EndpointsAlike, WellKeyed, NoneMalformed,
         Versioned, Repeats, ServicesKept, ConfigMapAlike, DeploymentAlike, ConfigMapName, ProxyName;
    var exp, next :| Paused(reserved, printer, s, k, exp, next, false);
    PausedParts(reserved, printer, s, k, exp, next, false);
    var ky := s.kanaries[k];
    DerivedNamesInjective(j, k);
    assert u.kanaries[k] == ky;
    ConfigStays(printer, s, u, k, exp);
    RestStays(reserved, s, u, j, ds, k, ky);
    EndpointsKeptAlike(j, s.endpoints, u.endpoints, k);
    ReferencedAlike(s.endpoints, u.endpoints, k, exp, next);
    ExpectedAlike(k, ky.spec.routes, s.endpoints, u.endpoints);
    PausedFromParts(reserved, printer, u, k, exp, next, false);
  }

  lemma OthersTurn(reserved: Reservations, printer: WeightPrinter, s: Store, u: Store, j: string, ds: set<string>,
                   k: string, n: nat)
    requires Phase(reserved, printer, s, k, n) && Sound(u) && OthersKept(j, ds, s, u) && j != k
    requires forall d :: d in ds ==> d in reserved && reserved[d] == j
    ensures Phase(reserved, printer, u, k, n)
  {
    hide Sound, Quiet, Settled, Stopped, OthersKept;
    if Quiet(printer, s, k) {
      QuietStays(printer, s, u, j, ds, k);
    } else if Stopped(reserved, printer, s, k) {
      StoppedStays(reserved, printer, s, u, j, ds, k);
    } else {
      OthersStaySettled(reserved, printer, s, u, j, ds, k, false);
    }
  }

  // ---------- rounds ----------

  lemma {:induction false} RoundPhases(reserved: Reservations, printer: WeightPrinter, s: Store, turns: seq<Turn>,
                                       before: string -> nat)
    requires Sound(s) && AllRecent(printer, s, turns) && forall k :: Phase(reserved, printer, s, k, before(k))
    ensures var u := SyncAll(printer, s, turns);
            Sound(u) && forall k :: Phase(reserved, printer, u, k, before(k) + Syncs(printer, s, turns, k))
  {
    hide Sound, Phase, RecentSync, SyncSeeing, SeesThrough;
    if turns == [] {
    } else {
      var init, last := turns[..|turns| - 1], turns[|turns| - 1];
      RoundPhases(reserved, printer, s, init, before);
      var m := SyncAll(printer, s, init);
      var u := SyncSeeing(printer, m, last.k, last.script);
      var n := before(last.k) + Syncs(printer, s, init, last.k);
      OwnTurn(reserved, printer, m, last.k, n, last.script);
      var ds := TurnKeepsOthers(reserved, printer, m, last.k, n, last.script);
      hide OthersKept;
      forall k ensures Phase(reserved, printer, u, k, before(k) + Syncs(printer, s, turns, k)) {
        if k != last.k {
          OthersTurn(reserved, printer, m, u, last.k, ds, k, before(k) + Syncs(printer, s, init, k));
        }
      }
    }
  }

  lemma BoundaryPhases(reserved: Reservations, printer: WeightPrinter, s: Store, k: string)
    requires Good(reserved, printer, s, false)
    ensures Sound(s) && Phase(reserved, printer, s, k, if k in s.kanaries then 0 else 2)
  {
    hide Settled, Stopped, Quiet;
    if k !in s.kanaries {
      QuietWithoutExpectation(printer, s, k);
    }
  }

  lemma RoundQuiets(reserved: Reservations, printer: WeightPrinter, s: Store, turns: seq<Turn>, k: string)
    requires Good(reserved, printer, s, false) && AllRecent(printer, s, turns)
    requires k in s.kanaries ==> Syncs(printer, s, turns, k) >= 2
    ensures Quiet(printer, SyncAll(printer, s, turns), k)
  {
    hide Good, SyncAll, AllRecent, Phase, Sound, Syncs, Quiet;
    var u := SyncAll(printer, s, turns);
    var before: string -> nat := j => if j in s.kanaries then 0 else 2;
    BoundaryPhases(reserved, printer, s, k);
    forall j ensures Phase(reserved, printer, s, j, before(j)) {
      BoundaryPhases(reserved, printer, s, j);
    }
    RoundPhases(reserved, printer, s, turns, before);
    assert Phase(reserved, printer, u, k, before(k) + Syncs(printer, s, turns, k));
    PhaseTwo(reserved, printer, u, k, before(k) + Syncs(printer, s, turns, k));
  }

  lemma PhaseTwo(reserved: Reservations, printer: WeightPrinter, s: Store, k: string, n: nat)
    requires Phase(reserved, printer, s, k, n) && n >= 2
    ensures Quiet(printer, s, k)
  {
  }

  /** From any boundary of a fault-free run, and on whatever recent views: a round that
      syncs every Kanary at least twice, or once with a view that cannot stop it,
      reaches a state that no further sync changes. */
  lemma RoundReachesFixpoint(reserved: Reservations, printer: WeightPrinter, states: seq<Store>, events: seq<CalmEvent>,
                             i: nat, turns: seq<Turn>, k: string, script: seq<Tick>)
    requires CalmRun(reserved, printer, states, events, false) && i < |states|
    requires AllRecent(printer, states[i], turns)
    requires forall j :: j in states[i].kanaries ==> Syncs(printer, states[i], turns, j) >= 2
    ensures SyncSeeing(printer, SyncAll(printer, states[i], turns), k, script) == SyncAll(printer, states[i], turns)
  {
    AlwaysGood(reserved, printer, states, events, i, false);
    hide CalmRun, Good, SyncAll, AllRecent, Syncs, Quiet;
    RoundQuiets(reserved, printer, states[i], turns, k);
    QuietSync(printer, SyncAll(printer, states[i], turns), k, script);
  }
}
