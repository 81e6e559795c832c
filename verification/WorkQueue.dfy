/** The controller's retry loop over its rate-limited work queue
    (pkg/controller/controller.go: enqueueKanary, processNextWorkItem, handleErr).

    A key that is added waits for its delay, is then pending until a worker takes it,
    and is processed by one worker at a time; it may be waiting, pending and processed
    at once, but only once each. The requeue counter of a key is raised by every
    rate-limited addition, those of event handlers included, and cleared by Forget. */
module WorkQueue {

  const MAX_RETRIES: nat := 15

  datatype Queue = Queue(waiting: set<string>, pending: set<string>, processing: set<string>, requeues: map<string, nat>) {

    function NumRequeues(k: string): nat {
      if k in requeues then requeues[k] else 0
    }

    /** A new key: in one place only, and never added before. */
    predicate Alone(k: string) {
      Places(this, k) == 1 && NumRequeues(k) == 0
    }

    function AddRateLimited(k: string): Queue {
      this.(waiting := waiting + {k}, requeues := requeues[k := NumRequeues(k) + 1])
    }

    /** The delay of k is over. */
    function Add(k: string): Queue {
      this.(waiting := waiting - {k}, pending := pending + {k})
    }

    function Forget(k: string): Queue {
      this.(requeues := requeues - {k})
    }

    function Take(k: string): Queue {
      this.(pending := pending - {k}, processing := processing + {k})
    }

    function Release(k: string): Queue {
      this.(processing := processing - {k})
    }

    function HandleErr(err: bool, k: string): Queue {
      if err && NumRequeues(k) < MAX_RETRIES then AddRateLimited(k) else Forget(k)
    }
  }

  /** The keys other than k are where they were, with the same counters, and nothing
      becomes pending or starts or stops being processed. */
  ghost predicate OthersKept(q: Queue, r: Queue, k: string) {
    && r.processing == q.processing
    && r.pending == q.pending
    && (forall j :: j != k ==> (j in r.waiting <==> j in q.waiting) && r.NumRequeues(j) == q.NumRequeues(j))
  }

  // ---------- the code ----------

  class Worker {
    var queue: Queue

    constructor ()
      ensures queue == Queue({}, {}, {}, map[])
    {
      queue := Queue({}, {}, {}, map[]);
    }

    /** The key waits for its delay, even if it is pending or being processed now, and
        counts one addition more. */
    method EnqueueKanary(k: string)
      modifies this
      ensures k in queue.waiting && queue.NumRequeues(k) == old(queue.NumRequeues(k)) + 1
      ensures OthersKept(old(queue), queue, k)
      ensures queue == After(old(queue), Enqueued(k))
    {
      queue := queue.AddRateLimited(k);
    }

    /** A failure below the limit is retried and counted; success and the failure at
        the limit clear the counter and leave it at that, so an event's addition of
        the key in the meantime stays. */
    method HandleErr(err: bool, k: string)
      modifies this
      ensures err && old(queue.NumRequeues(k)) < MAX_RETRIES ==>
                k in queue.waiting && queue.NumRequeues(k) == old(queue.NumRequeues(k)) + 1
      ensures !err || old(queue.NumRequeues(k)) >= MAX_RETRIES ==>
                queue.waiting == old(queue.waiting) && queue.NumRequeues(k) == 0
      ensures OthersKept(old(queue), queue, k)
      ensures queue == old(queue).HandleErr(err, k)
    {
      if !err {
        queue := queue.Forget(k);
        return;
      }
      if queue.NumRequeues(k) < MAX_RETRIES {
        queue := queue.AddRateLimited(k);
        return;
      }
      queue := queue.Forget(k);
    }

    /** One item: Get, sync with the given outcome, handleErr, Done. */
    method ProcessNextWorkItem(k: string, err: bool)
      requires k in queue.pending && k !in queue.processing
      modifies this
      ensures queue == After(After(old(queue), Begun(k)), Finished(k, err))
    {
      queue := queue.Take(k);
      HandleErr(err, k);
      queue := queue.Release(k);
    }

    /** The worker loop, left alone with the outcomes its syncs have (successes after the
        last of errs): it ends with an empty queue. With nothing pending it blocks until a
        delay is over. What happens, as log says, is a run of the queue in which the j-th
        sync has the j-th outcome; every key is synced, and there are at most SyncBudget
        syncs in all. A new key that is alone and keeps failing is tried 16 times. */
    method Run(errs: seq<bool>) returns (syncs: nat, ghost log: seq<Event>)
      requires queue.processing == {}
      modifies this
      ensures Keys(queue) == {} && Logs(old(queue), log, queue, errs, syncs)
      ensures forall k :: k in Keys(old(queue)) ==> Outcomes(log, k) != []
      ensures |Keys(old(queue))| <= syncs <= SyncBudget(old(queue), Keys(old(queue)))
      ensures forall k :: Keys(old(queue)) == {k} && old(queue).Alone(k) && (forall j :: 0 <= j < 16 ==> Outcome(errs, j))
                          ==> syncs == 16
    {
      syncs, log := 0, [];
      ghost var ks := Keys(queue);
      hide Possible, Exec, AllOutcomes, Outcomes, SyncBudget, TotalCost, Logs;
      NothingYet(queue, errs);
      while queue.pending != {} || queue.waiting != {}
        invariant queue.processing == {} && Keys(queue) <= ks
        invariant Logs(old(queue), log, queue, errs, syncs)
        invariant syncs + SyncBudget(queue, ks) <= SyncBudget(old(queue), ks)
        decreases TotalCost(queue, ks)
      {
        ghost var before := queue;
        if queue.pending == {} {
          var k :| k in queue.waiting;
          queue := queue.Add(k);
          DelayEnds(old(queue), log, before, k, errs, syncs, ks);
          log := log + [Due(k)];
        } else {
          var k :| k in queue.pending;
          var err := syncs < |errs| && errs[syncs];
          ProcessNextWorkItem(k, err);
          SyncEnds(old(queue), log, before, k, errs, syncs, ks);
          log := log + [Begun(k), Finished(k, err)];
          syncs := syncs + 1;
        }
      }
      Drained(old(queue), log, queue, errs, syncs);
    }
  }

  // ---------- runs ----------

  datatype Event = Enqueued(k: string) | Due(k: string) | Begun(k: string) | Finished(k: string, err: bool)

  predicate Enabled(q: Queue, e: Event) {
    match e
    case Enqueued(_) => true
    case Due(k) => k in q.waiting
    case Begun(k) => k in q.pending && k !in q.processing
    case Finished(k, _) => k in q.processing
  }

  function After(q: Queue, e: Event): Queue {
    match e
    case Enqueued(k) => q.AddRateLimited(k)
    case Due(k) => q.Add(k)
    case Begun(k) => q.Take(k)
    case Finished(k, err) => q.HandleErr(err, k).Release(k)
  }

  function Exec(q: Queue, events: seq<Event>): Queue
    decreases |events|
  {
    if events == [] then q else Exec(After(q, events[0]), events[1..])
  }

  predicate Possible(q: Queue, events: seq<Event>)
    decreases |events|
  {
    events == [] || (Enabled(q, events[0]) && Possible(After(q, events[0]), events[1..]))
  }

  /** The event makes the queue forget the failures of k. */
  predicate Forgets(q: Queue, e: Event, k: string) {
    e.Finished? && e.k == k && (!e.err || q.NumRequeues(k) >= MAX_RETRIES)
  }

  predicate NeverForgets(q: Queue, events: seq<Event>, k: string)
    decreases |events|
  {
    events == [] || (!Forgets(q, events[0], k) && NeverForgets(After(q, events[0]), events[1..], k))
  }

  function Failures(events: seq<Event>, k: string): nat {
    if events == [] then 0 else (if events[0] == Finished(k, true) then 1 else 0) + Failures(events[1..], k)
  }

  function Additions(events: seq<Event>, k: string): nat {
    if events == [] then 0 else (if events[0] == Enqueued(k) then 1 else 0) + Additions(events[1..], k)
  }

  // ---------- how often a failing key is retried ----------

  /** Without a Forget, the counter of a key counts its failing syncs and its event
      enqueues, and a failing sync needs the counter to be below the limit. */
  lemma {:induction false} CounterCounts(q: Queue, events: seq<Event>, k: string)
    requires NeverForgets(q, events, k)
    ensures Exec(q, events).NumRequeues(k) == q.NumRequeues(k) + Failures(events, k) + Additions(events, k)
    ensures Failures(events, k) > 0 ==> q.NumRequeues(k) + Failures(events, k) <= MAX_RETRIES
    decreases |events|
  {
    if events == [] {
    } else {
      CounterCounts(After(q, events[0]), events[1..], k);
    }
  }

  /** Between two Forgets a key fails at most maxRetries + 1 times: in any run that
      starts with a cleared counter and whose last event is the first to forget it. */
  lemma RetryBound(q: Queue, events: seq<Event>, last: Event, k: string)
    requires q.NumRequeues(k) == 0 && NeverForgets(q, events, k)
    requires Forgets(Exec(q, events), last, k)
    ensures Failures(events + [last], k) <= MAX_RETRIES + 1
    ensures last == Finished(k, true) && Additions(events, k) == 0 ==> Failures(events + [last], k) == MAX_RETRIES + 1
  {
    CounterCounts(q, events, k);
    FailuresAppend(events, last, k);
  }

  lemma {:induction false} FailuresAppend(events: seq<Event>, last: Event, k: string)
    ensures Failures(events + [last], k) == Failures(events, k) + if last == Finished(k, true) then 1 else 0
  {
    if events == [] {
      assert events + [last] == [last];
    } else {
      assert (events + [last])[1..] == events[1..] + [last];
      FailuresAppend(events[1..], last, k);
    }
  }

  // ---------- every key is synced ----------

  ghost predicate NoneEnqueued(events: seq<Event>) {
    forall i :: 0 <= i < |events| ==> !events[i].Enqueued?
  }

  /** The outcomes of the syncs that finish, in order; true is a failure. */
  function AllOutcomes(events: seq<Event>): seq<bool> {
    if events == [] then [] else (if events[0].Finished? then [events[0].err] else []) + AllOutcomes(events[1..])
  }

  function Outcomes(events: seq<Event>, k: string): seq<bool> {
    if events == [] then []
    else (if events[0].Finished? && events[0].k == k then [events[0].err] else []) + Outcomes(events[1..], k)
  }

  lemma {:induction false} OneMoreEvent(q: Queue, events: seq<Event>, e: Event)
    requires Possible(q, events) && Enabled(Exec(q, events), e)
    ensures Possible(q, events + [e]) && Exec(q, events + [e]) == After(Exec(q, events), e)
    ensures AllOutcomes(events + [e]) == AllOutcomes(events) + if e.Finished? then [e.err] else []
    decreases |events|
  {
    if events == [] {
      assert events + [e] == [e];
    } else {
      assert (events + [e])[1..] == events[1..] + [e];
      OneMoreEvent(After(q, events[0]), events[1..], e);
    }
  }

  /** Only a finished sync takes a key out of the queue, and only that key. */
  lemma KeysAfter(q: Queue, e: Event)
    requires Enabled(q, e) && !e.Enqueued?
    ensures Keys(After(q, e)) <= Keys(q)
    ensures Keys(q) - Keys(After(q, e)) <= if e.Finished? then {e.k} else {}
  {
  }

  /** In a run that drains the queue every key is synced at least once. */
  lemma {:induction false} EveryKeyIsSynced(q: Queue, events: seq<Event>)
    requires Possible(q, events) && NoneEnqueued(events) && Keys(Exec(q, events)) == {}
    ensures forall k :: k in Keys(q) ==> Outcomes(events, k) != []
    ensures |Keys(q)| <= |AllOutcomes(events)|
    decreases |events|
  {
    if events == [] {
    } else {
      var e, r := events[0], After(q, events[0]);
      KeysAfter(q, e);
      EveryKeyIsSynced(r, events[1..]);
      FewerKeys(Keys(q), Keys(r), e.k);
      hide Exec, Possible, Enabled, After, Keys;
      forall k | k in Keys(q) ensures Outcomes(events, k) != [] {
        assert k in Keys(r) || (e.Finished? && e.k == k);
      }
    }
  }

  lemma FewerKeys(a: set<string>, b: set<string>, k: string)
    requires b <= a && a - b <= {k}
    ensures |a| <= |b| + 1 && (k in b ==> a == b) && (a - b == {} ==> a == b)
  {
    assert a == b + (a - b);
    if k in a - b {
      assert a == b + {k};
    } else {
      assert a - b == {};
    }
  }

  lemma {:induction false} AbsentIsNotSynced(q: Queue, events: seq<Event>, k: string)
    requires Possible(q, events) && NoneEnqueued(events) && k !in Keys(q)
    ensures Outcomes(events, k) == []
    decreases |events|
  {
    if events == [] {
    } else {
      KeysAfter(q, events[0]);
      AbsentIsNotSynced(After(q, events[0]), events[1..], k);
    }
  }

  lemma {:induction false} OnlyItsOutcomes(q: Queue, events: seq<Event>, k: string)
    requires Possible(q, events) && NoneEnqueued(events) && Keys(q) <= {k}
    ensures AllOutcomes(events) == Outcomes(events, k)
    decreases |events|
  {
    if events == [] {
    } else {
      KeysAfter(q, events[0]);
      OnlyItsOutcomes(After(q, events[0]), events[1..], k);
    }
  }

  /** The retries of one key among others, in a run that drains the queue: it is synced
      until it succeeds, or until it has failed as often as its counter leaves to the
      limit and once more; a new key that always fails, 16 times. */
  lemma {:induction false} KeyIsRetried(q: Queue, events: seq<Event>, k: string)
    requires Possible(q, events) && NoneEnqueued(events) && Keys(Exec(q, events)) == {} && Places(q, k) == 1
    ensures var o := Outcomes(events, k);
            var left := if q.NumRequeues(k) < MAX_RETRIES then MAX_RETRIES - q.NumRequeues(k) else 0;
            && 1 <= |o| <= left + 1
            && (forall j :: 0 <= j < |o| - 1 ==> o[j])
            && (o[|o| - 1] ==> |o| == left + 1)
            && (q.NumRequeues(k) == 0 && (forall j :: 0 <= j < |o| ==> o[j]) ==> |o| == 16)
    decreases |events|
  {
    assert k in Keys(q);
    var e, r := events[0], After(q, events[0]);
    if Places(r, k) == 0 {
      AbsentIsNotSynced(r, events[1..], k);
    } else {
      KeyIsRetried(r, events[1..], k);
    }
  }

  // ---------- the queue drains ----------

  ghost function Keys(q: Queue): set<string> {
    q.waiting + q.pending + q.processing
  }

  /** In how many of its three places the key is. */
  function Places(q: Queue, k: string): nat {
    (if k in q.waiting then 1 else 0) + (if k in q.pending then 1 else 0) + (if k in q.processing then 1 else 0)
  }

  /** The syncs of k that may still finish if nobody enqueues it any more: in one of its
      places it may use up what is left to the limit, and from every other one it may
      start over with a cleared counter. */
  function Budget(q: Queue, k: string): nat {
    var left := if q.NumRequeues(k) < MAX_RETRIES then MAX_RETRIES - q.NumRequeues(k) else 0;
    if Places(q, k) == 0 then 0 else left + 1 + (Places(q, k) - 1) * (MAX_RETRIES + 1)
  }

  /** Three events for each sync of the budget; of the next, some may have happened. */
  function Cost(q: Queue, k: string): nat {
    3 * Budget(q, k) + (if k in q.waiting then 2 else 0) + (if k in q.pending then 1 else 0)
  }

  ghost function Sum(f: string -> nat, ks: set<string>): nat {
    if ks == {} then 0 else var k :| k in ks; f(k) + Sum(f, ks - {k})
  }

  lemma {:induction false} SumWithout(f: string -> nat, ks: set<string>, k: string)
    requires k in ks
    ensures Sum(f, ks) == f(k) + Sum(f, ks - {k})
  {
    var j :| j in ks && Sum(f, ks) == f(j) + Sum(f, ks - {j});
    if j == k {
    } else {
      SumWithout(f, ks - {j}, k);
      SumWithout(f, ks - {k}, j);
      assert ks - {j} - {k} == ks - {k} - {j};
    }
  }

  lemma {:induction false} SumSame(f: string -> nat, g: string -> nat, ks: set<string>)
    requires forall k :: k in ks ==> f(k) == g(k)
    ensures Sum(f, ks) == Sum(g, ks)
  {
    if ks == {} {
    } else {
      var k :| k in ks;
      SumWithout(f, ks, k);
      SumWithout(g, ks, k);
      SumSame(f, g, ks - {k});
    }
  }

  ghost function SyncBudget(q: Queue, ks: set<string>): nat {
    Sum(k => Budget(q, k), ks)
  }

  ghost function TotalCost(q: Queue, ks: set<string>): nat {
    Sum(k => Cost(q, k), ks)
  }

  /** One key's share changes, all others keep theirs. */
  lemma SumChanges(f: string -> nat, g: string -> nat, ks: set<string>, k: string)
    requires k in ks && forall j :: j in ks && j != k ==> f(j) == g(j)
    ensures Sum(g, ks) == Sum(f, ks) - f(k) + g(k)
  {
    SumWithout(f, ks, k);
    SumWithout(g, ks, k);
    SumSame(f, g, ks - {k});
  }

  lemma ItemSpendsBudget(q: Queue, k: string, err: bool, ks: set<string>)
    requires k in q.pending && q.processing == {} && Keys(q) <= ks
    ensures var q' := After(After(q, Begun(k)), Finished(k, err));
            q'.processing == {} && Keys(q') <= ks && SyncBudget(q', ks) < SyncBudget(q, ks)
  {
    var q' := After(After(q, Begun(k)), Finished(k, err));
    SumChanges(j => Budget(q, j), j => Budget(q', j), ks, k);
  }

  lemma DueKeepsBudget(q: Queue, k: string, ks: set<string>)
    requires k in q.waiting && Keys(q) <= ks
    ensures Keys(After(q, Due(k))) <= ks && SyncBudget(After(q, Due(k)), ks) <= SyncBudget(q, ks)
  {
    var q' := After(q, Due(k));
    SumChanges(j => Budget(q, j), j => Budget(q', j), ks, k);
  }

  /** Every event but an enqueue lowers the cost. */
  lemma EventLowersCost(q: Queue, e: Event, ks: set<string>)
    requires Enabled(q, e) && !e.Enqueued? && Keys(q) <= ks
    ensures Keys(After(q, e)) <= ks && TotalCost(After(q, e), ks) < TotalCost(q, ks)
  {
    var q' := After(q, e);
    SumChanges(j => Cost(q, j), j => Cost(q', j), ks, e.k);
  }

  /** With no new events the queue drains, whatever the syncs' outcomes, however several
      workers interleave and whenever delays are over: no run is longer than the cost of
      its first state. */
  lemma {:induction false} RunsAreBounded(q: Queue, events: seq<Event>, ks: set<string>)
    requires Possible(q, events) && Keys(q) <= ks && NoneEnqueued(events)
    ensures |events| + TotalCost(Exec(q, events), ks) <= TotalCost(q, ks)
    decreases |events|
  {
    if events == [] {
    } else {
      EventLowersCost(q, events[0], ks);
      RunsAreBounded(After(q, events[0]), events[1..], ks);
    }
  }

  /** ... and a run that cannot be continued has emptied the queue. */
  lemma StuckMeansEmpty(q: Queue)
    requires forall e :: Enabled(q, e) ==> e.Enqueued?
    ensures q.waiting == {} && q.pending == {} && q.processing == {}
  {
    if k :| k in q.processing {
      assert Enabled(q, Finished(k, false));
    } else if k :| k in q.waiting {
      assert Enabled(q, Due(k));
    } else if k :| k in q.pending {
      assert Enabled(q, Begun(k));
    }
  }

  // ---------- the worker's log ----------

  /** The outcome of the j-th sync. */
  predicate Outcome(errs: seq<bool>, j: nat) {
    j < |errs| && errs[j]
  }

  /** The events lead from q to r, none of them is an enqueue, and they finish as many
      syncs as said, each with its outcome. */
  ghost predicate Logs(q: Queue, log: seq<Event>, r: Queue, errs: seq<bool>, syncs: nat) {
    && Possible(q, log) && Exec(q, log) == r && NoneEnqueued(log)
    && syncs == |AllOutcomes(log)| && forall j :: 0 <= j < syncs ==> AllOutcomes(log)[j] == Outcome(errs, j)
  }

  lemma NothingYet(q: Queue, errs: seq<bool>)
    ensures Logs(q, [], q, errs, 0)
  {
  }

  lemma DelayEnds(q: Queue, log: seq<Event>, r: Queue, k: string, errs: seq<bool>, syncs: nat, ks: set<string>)
    requires Logs(q, log, r, errs, syncs) && k in r.waiting && Keys(r) <= ks
    ensures Logs(q, log + [Due(k)], After(r, Due(k)), errs, syncs) && Keys(After(r, Due(k))) <= ks
    ensures SyncBudget(After(r, Due(k)), ks) <= SyncBudget(r, ks) && TotalCost(After(r, Due(k)), ks) < TotalCost(r, ks)
  {
    OneMoreEvent(q, log, Due(k));
    DueKeepsBudget(r, k, ks);
    EventLowersCost(r, Due(k), ks);
    hide Possible, Exec, AllOutcomes, SyncBudget, TotalCost;
  }

  lemma SyncEnds(q: Queue, log: seq<Event>, r: Queue, k: string, errs: seq<bool>, syncs: nat, ks: set<string>)
    requires Logs(q, log, r, errs, syncs) && k in r.pending && r.processing == {} && Keys(r) <= ks
    ensures var err := Outcome(errs, syncs);
            var u := After(After(r, Begun(k)), Finished(k, err));
            && Logs(q, log + [Begun(k), Finished(k, err)], u, errs, syncs + 1) && Keys(u) <= ks && u.processing == {}
            && SyncBudget(u, ks) < SyncBudget(r, ks) && TotalCost(u, ks) < TotalCost(r, ks)
  {
    var err := Outcome(errs, syncs);
    hide Possible, Exec, AllOutcomes, SyncBudget, TotalCost;
    OneMoreEvent(q, log, Begun(k));
    OneMoreEvent(q, log + [Begun(k)], Finished(k, err));
    assert log + [Begun(k)] + [Finished(k, err)] == log + [Begun(k), Finished(k, err)];
    ItemSpendsBudget(r, k, err, ks);
    EventLowersCost(r, Begun(k), ks);
    EventLowersCost(After(r, Begun(k)), Finished(k, err), ks);
  }

  lemma Drained(q: Queue, log: seq<Event>, r: Queue, errs: seq<bool>, syncs: nat)
    requires Logs(q, log, r, errs, syncs) && Keys(r) == {}
    ensures |Keys(q)| <= syncs && forall k :: k in Keys(q) ==> Outcomes(log, k) != []
    ensures forall k :: Keys(q) == {k} && q.Alone(k) && (forall j :: 0 <= j < 16 ==> Outcome(errs, j)) ==> syncs == 16
  {
    EveryKeyIsSynced(q, log);
    forall k | Keys(q) == {k} && q.Alone(k) && (forall j :: 0 <= j < 16 ==> Outcome(errs, j)) ensures syncs == 16 {
      OnlyItsOutcomes(q, log, k);
      hide Possible, Exec, AllOutcomes, Outcomes;
      KeyIsRetried(q, log, k);
    }
  }
}
