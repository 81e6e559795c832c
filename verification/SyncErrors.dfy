/** Which syncs return an error, and so are retried: the calls of a run, one by one, and
    the answers they get. */
module SyncErrors {
  import opened KanaryTypes
  import opened EndpointDiff
  import opened ExpectedStatus
  import opened ConfigText
  import opened ApiStore
  import opened SyncProtocol

  /** A call that a sync makes: what the store is then, and what the call meets. */
  datatype Call = Call(store: Store, task: Task, tick: Tick)

  /** The calls of a run, in order. */
  ghost function Calls(s: Store, t: Task, script: seq<Tick>): seq<Call>
    decreases Rank(t)
  {
    if t.Done? then []
    else
      var (s', t') := Step(s, t, HeadTick(script));
      [Call(s, t, HeadTick(script))] + Calls(s', t', TailTicks(script))
  }

  /** The store has the very version of the Kanary. */
  predicate AtVersion(s: Store, ky: Kanary) {
    ky.name in s.kanaries && s.kanaries[ky.name].version == ky.version
  }

  /** The service is listed with a readable list and in its very version. */
  predicate CanRefer(s: Store, cache: EndpointsCache, service: string) {
    && service in cache && !cache[service].kanaryRef.Malformed?
    && var ep := cache[service]; ep.name in s.endpoints && s.endpoints[ep.name].version == ep.version
  }

  /** The call is honoured, and the server does what it asks for. */
  predicate Accepted(c: Call)
    requires !c.task.Done?
  {
    && c.tick.verdict.Honoured?
    && var s := c.store;
       match c.task
       case WriteConfig(ky, _, _) =>
         if ky.status.destination.configName == "" then ConfigMapName(ky.name) !in s.configMaps
         else ConfigMapName(ky.name) in s.configMaps
       case ReadProxy(ky, _) => ky.status.destination.proxyName in s.deployments
       case RollProxy(_, _, d) => d.name in s.deployments && s.deployments[d.name].version == d.version
       case RecordConfig(ky, _) => AtVersion(s, ky)
       case RecordEndpoints(ky, _) => AtVersion(s, ky)
       case AddRefs(ky, next) =>
         next >= |ky.status.endpoints|
         || CanRefer(s, c.tick.cache.GetOr(s.endpoints), ky.status.endpoints[next].serviceName)
       case CreateProxy(ky) => ProxyName(ky.name) !in s.deployments
       case RecordProxy(ky) => AtVersion(s, ky)
       case RemoveService(ky) => ky.status.destination.serviceName in s.services
       case PublishService(ky) => ky.spec.destination !in s.services
       case RecordService(ky) => AtVersion(s, ky)
  }

  /** The last status write, refused. */
  predicate ServiceNotRecorded(c: Call) {
    c.task.RecordService? && !Accepted(c)
  }

  // ---------- one call ----------

  /** A refused call ends the sync, in an error exactly if it was the last status write;
      after an accepted one the sync goes on, or is over without an error. */
  ghost predicate Answered(c: Call, next: Task)
    requires !c.task.Done?
  {
    if Accepted(c) then next.Done? ==> !next.err else next == Done(ServiceNotRecorded(c))
  }

  lemma ConfigCallAnswers(s: Store, t: Task, tick: Tick)
    requires t.WriteConfig? || t.ReadProxy? || t.RollProxy?
    ensures Answered(Call(s, t, tick), Step(s, t, tick).1)
  {
    hide Counted, Rolled;
    RolledName(if t.RollProxy? then t.deployment else Deployment("", 0, "", "", ""));
  }

  lemma StatusCallAnswers(s: Store, t: Task, tick: Tick)
    requires t.RecordConfig? || t.RecordEndpoints? || t.RecordProxy? || t.RecordService?
    ensures Answered(Call(s, t, tick), Step(s, t, tick).1)
  {
  }

  lemma ObjectCallAnswers(s: Store, t: Task, tick: Tick)
    requires t.CreateProxy? || t.RemoveService? || t.PublishService?
    ensures Answered(Call(s, t, tick), Step(s, t, tick).1)
  {
  }

  lemma RefCallAnswers(s: Store, t: Task, tick: Tick)
    requires t.AddRefs? && t.next < |t.ky.status.endpoints|
    ensures Answered(Call(s, t, tick), Step(s, t, tick).1)
    ensures var t' := Step(s, t, tick).1; t'.AddRefs? ==> t'.next < |t'.ky.status.endpoints|
  {
  }

  /** A reference step always has a service to refer to. */
  predicate Refers(t: Task) {
    t.AddRefs? ==> t.next < |t.ky.status.endpoints|
  }

  lemma CallAnswers(s: Store, t: Task, tick: Tick)
    requires !t.Done? && Refers(t)
    ensures Answered(Call(s, t, tick), Step(s, t, tick).1) && Refers(Step(s, t, tick).1)
  {
    hide Answered;
    if t.AddRefs? {
      RefCallAnswers(s, t, tick);
    } else {
      StepRefers(s, t, tick);
      hide Step;
      if t.WriteConfig? || t.ReadProxy? || t.RollProxy? {
        ConfigCallAnswers(s, t, tick);
      } else if t.CreateProxy? || t.RemoveService? || t.PublishService? {
        ObjectCallAnswers(s, t, tick);
      } else {
        StatusCallAnswers(s, t, tick);
      }
    }
  }

  lemma StepRefers(s: Store, t: Task, tick: Tick)
    requires !t.Done? && !t.AddRefs?
    ensures Refers(Step(s, t, tick).1)
  {
    hide Rolled, NewConfigMap, NewDeployment, NewService, Counted, UpdateKanary, CreateConfigMap, UpdateConfigMap,
         CreateDeployment, UpdateDeployment, CreateService, DeleteService, AddKanaryRef;
  }

  // ---------- the whole sync ----------

  /** The calls up to the last are accepted, and the error says whether the last one was
      the refused record of the service. */
  lemma {:induction false} RunErrs(s: Store, t: Task, script: seq<Tick>)
    requires Refers(t)
    ensures var calls := Calls(s, t, script);
            && (forall i :: 0 <= i < |calls| ==> !calls[i].task.Done?)
            && (forall i :: 0 <= i < |calls| - 1 ==> Accepted(calls[i]))
            && (Run(s, t, script).1 <==> t == Done(true) || exists i :: 0 <= i < |calls| && ServiceNotRecorded(calls[i]))
    decreases Rank(t)
  {
    if t.Done? {
    } else {
      var c := Call(s, t, HeadTick(script));
      var (s', t') := Step(s, t, HeadTick(script));
      CallAnswers(s, t, HeadTick(script));
      RunErrs(s', t', TailTicks(script));
      var calls, rest := Calls(s, t, script), Calls(s', t', TailTicks(script));
      assert calls == [c] + rest;
      assert Run(s, t, script) == Run(s', t', TailTicks(script));
      hide Step, Run, Calls, Accepted;
      assert calls[0] == c && forall i :: 0 < i < |calls| ==> calls[i] == rest[i - 1];
      if i :| 0 <= i < |rest| && ServiceNotRecorded(rest[i]) {
        assert ServiceNotRecorded(calls[i + 1]);
      }
    }
  }

  /** One of the calls is the refused record of the service. */
  ghost predicate ServiceUnrecorded(s: Store, t: Task, script: seq<Tick>) {
    exists c :: c in Calls(s, t, script) && ServiceNotRecorded(c)
  }

  /** Over all stores, lookups, views and faults: a sync returns an error, and so is
      retried, if and only if the Kanary could not be looked up for another reason than
      that it is gone, or the last status write was refused. Every other failure is
      swallowed. */
  lemma SyncErrs(printer: WeightPrinter, s: Store, lookup: Lookup, cache: EndpointsCache, script: seq<Tick>)
    ensures var t := Begin(printer, lookup, cache);
            Run(s, t, script).1 <==> lookup.LookupFailed? || ServiceUnrecorded(s, t, script)
  {
    var t := Begin(printer, lookup, cache);
    BeginRefers(printer, lookup, cache);
    hide Begin, Run, Calls, ServiceNotRecorded;
    RunErrs(s, t, script);
    CallsAsSet(s, t, script);
  }

  lemma BeginRefers(printer: WeightPrinter, lookup: Lookup, cache: EndpointsCache)
    ensures Refers(Begin(printer, lookup, cache))
    ensures Begin(printer, lookup, cache) == Done(true) <==> lookup.LookupFailed?
  {
    hide ExpectedOf, StatusCovers, Render;
  }

  lemma CallsAsSet(s: Store, t: Task, script: seq<Tick>)
    ensures var calls := Calls(s, t, script);
            ServiceUnrecorded(s, t, script) <==> exists i :: 0 <= i < |calls| && ServiceNotRecorded(calls[i])
  {
    hide Calls, ServiceNotRecorded;
    var calls := Calls(s, t, script);
    if ServiceUnrecorded(s, t, script) {
      var c :| c in calls && ServiceNotRecorded(c);
      var i :| 0 <= i < |calls| && calls[i] == c;
      assert ServiceNotRecorded(calls[i]);
    }
  }

  /** What the next sync of ky is to create is there already, and not recorded: a crash
      between the two writes leaves this. */
  predicate Unrecorded(s: Store, ky: Kanary, expected: seq<KanaryEndpointList>) {
    var d := ky.status.destination;
    if !StatusCovers(expected, ky.status.endpoints) then d.configName == "" && ConfigMapName(ky.name) in s.configMaps
    else if d.proxyName == "" then ProxyName(ky.name) in s.deployments
    else d.serviceName == "" && ky.spec.destination != "" && ky.spec.destination in s.services
  }

  /** Then no sync ever gets anywhere: whatever its calls meet, it changes nothing and
      returns no error, so it is not even retried. */
  lemma UnrecordedBlocks(printer: WeightPrinter, s: Store, ky: Kanary, cache: EndpointsCache, script: seq<Tick>)
    requires ExpectedOf(ky.spec.routes, cache).Some?
    requires Unrecorded(s, ky, ExpectedOf(ky.spec.routes, cache).value)
    ensures Run(s, Begin(printer, Found(ky), cache), script) == (s, false)
  {
    var t := Begin(printer, Found(ky), cache);
    hide ExpectedOf, StatusCovers, Render;
    assert t.WriteConfig? || t.CreateProxy? || t.PublishService?;
    assert Step(s, t, HeadTick(script)) == (s, Done(false));
    hide Begin, Step;
    LastCallOf(s, t, script);
  }

  lemma LastCallOf(s: Store, t: Task, script: seq<Tick>)
    requires !t.Done? && Step(s, t, HeadTick(script)).1.Done?
    ensures Run(s, t, script) == (Step(s, t, HeadTick(script)).0, Step(s, t, HeadTick(script)).1.err)
  {
  }

  /** The part of a sync behind its proxy errs on nothing but that record. */
  lemma ServicePartErrs(s: Store, ky: Kanary, script: seq<Tick>)
    ensures Run(s, AfterProxy(ky), script).1 <==> ServiceUnrecorded(s, AfterProxy(ky), script)
  {
    var t := AfterProxy(ky);
    assert Refers(t) && t != Done(true);
    hide AfterProxy, Run, Calls, ServiceNotRecorded;
    RunErrs(s, t, script);
    CallsAsSet(s, t, script);
  }

  /** Such a refusal: after the service has been created, a user edits the spec before
      the last status write. The write conflicts and the sync returns an error, leaving
      the edited Kanary as it is. */
  lemma EditedMeanwhile(s: Store, ky: Kanary, spec: KanarySpec)
    requires ky.name in s.kanaries && s.kanaries[ky.name] == ky && ky.version <= s.rev
    requires ky.status.destination.serviceName == "" && ky.spec.destination != "" && ky.spec.destination !in s.services
    ensures var (u, t) := Step(s, AfterProxy(ky), CALM);
            var edited := u.(rev := u.rev + 1, kanaries := u.kanaries[ky.name := ky.(version := u.rev + 1, spec := spec)]);
            && ky.spec.destination in u.services
            && Run(edited, t, []) == (edited, true)
  {
    var (u, t) := Step(s, PublishService(ky), CALM);
    hide Run;
    assert t == RecordService(ky) && u.kanaries == s.kanaries;
    var edited := u.(rev := u.rev + 1, kanaries := u.kanaries[ky.name := ky.(version := u.rev + 1, spec := spec)]);
    assert Step(edited, t, CALM) == (edited, Done(true));
    LastCallOf(edited, t, []);
  }
}
