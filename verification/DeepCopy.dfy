/** Kanary objects as the informer cache holds them: shared, mutable, and with
    slices that are references to storage (pkg/apis/kanary/v1/zz_generated.deepcopy.go,
    pkg/controller/controller.go: the updateStatus methods). A nil slice is null.

    The rest of the model passes Kanaries as values; here is why it may. */
module DeepCopy {
  import opened KanaryTypes

  datatype EndpointEntry = EndpointEntry(serviceName: string, weight: int, ips: array?<string>)

  // ---------- the value of an object, nil slices told from empty ones ----------

  datatype EntryImage = EntryImage(serviceName: string, weight: int, ips: Option<seq<string>>)

  datatype Image = Image(name: string, version: nat, destination: string, routes: Option<seq<KanaryRoute>>,
                         recorded: DestinationStatus, endpoints: Option<seq<EntryImage>>)

  function SliceImage<T>(s: array?<T>): Option<seq<T>>
    reads s
  {
    if s == null then None else Some(s[..])
  }

  function ImageOfEntry(e: EndpointEntry): EntryImage
    reads e.ips
  {
    EntryImage(e.serviceName, e.weight, SliceImage(e.ips))
  }

  ghost function AddressStorage(entries: seq<EndpointEntry>): set<object> {
    set i | 0 <= i < |entries| && entries[i].ips != null :: entries[i].ips
  }

  ghost function ImagesOf(entries: seq<EndpointEntry>): seq<EntryImage>
    reads AddressStorage(entries)
  {
    seq(|entries|, i requires 0 <= i < |entries| reads AddressStorage(entries) =>
      assert entries[i].ips != null ==> entries[i].ips in AddressStorage(entries);
      ImageOfEntry(entries[i]))
  }

  ghost function ListStorage(list: array?<EndpointEntry>): set<object>
    reads list
  {
    if list == null then {} else {list} + AddressStorage(list[..])
  }

  ghost function ImageOfList(list: array?<EndpointEntry>): Option<seq<EntryImage>>
    reads list, ListStorage(list)
  {
    if list == null then None else Some(ImagesOf(list[..]))
  }

  /** No two entries share their address storage. */
  ghost predicate Disjoint(entries: seq<EndpointEntry>) {
    forall i, j :: 0 <= i < j < |entries| && entries[i].ips != null ==> entries[i].ips != entries[j].ips
  }

  class KanaryObject {
    var name: string
    var version: nat
    var destination: string
    var routes: array?<KanaryRoute>
    var recorded: DestinationStatus
    var endpoints: array?<EndpointEntry>

    constructor ()
      ensures name == "" && version == 0 && destination == "" && routes == null && endpoints == null
      ensures recorded == DestinationStatus("", "", "")
    {
      name, version, destination, routes, endpoints := "", 0, "", null, null;
      recorded := DestinationStatus("", "", "");
    }

    ghost function Storage(): set<object>
      reads this, endpoints
    {
      {this} + (if routes == null then {} else {routes}) + ListStorage(endpoints)
    }

    ghost function Value(): Image
      reads this, routes, endpoints, ListStorage(endpoints)
    {
      Image(name, version, destination, SliceImage(routes), recorded, ImageOfList(endpoints))
    }
  }

  /** The image of a list depends on the list's own storage only. */
  twostate lemma ImageKept(list: array?<EndpointEntry>)
    requires list != null ==> unchanged(list) && unchanged(AddressStorage(list[..]))
    ensures ImageOfList(list) == old(ImageOfList(list))
  {
    if list != null {
      assert list[..] == old(list[..]);
      assert ImagesOf(list[..]) == old(ImagesOf(list[..]));
    }
  }

  // ---------- the code: copying ----------

  method CopySlice<T(0)>(s: array?<T>) returns (copy: array?<T>)
    ensures SliceImage(copy) == SliceImage(s)
    ensures copy != null ==> fresh(copy)
  {
    if s == null {
      return null;
    }
    copy := new T[s.Length];
    forall i | 0 <= i < s.Length {
      copy[i] := s[i];
    }
    assert copy[..] == s[..];
  }

  method CopyEntries(list: array<EndpointEntry>) returns (copy: array<EndpointEntry>)
    ensures fresh(copy) && fresh(AddressStorage(copy[..]))
    ensures ImagesOf(copy[..]) == old(ImagesOf(list[..])) && Disjoint(copy[..])
  {
    copy := new EndpointEntry[list.Length](_ => EndpointEntry("", 0, null));
    ghost var was := list[..];
    var i := 0;
    while i < list.Length
      invariant 0 <= i <= list.Length && list[..] == was
      invariant forall j :: i <= j < list.Length ==> copy[j].ips == null
      invariant forall j :: 0 <= j < i ==> copy[j].ips != null ==> fresh(copy[j].ips)
      invariant forall j :: 0 <= j < i ==> ImageOfEntry(copy[j]) == old(ImageOfEntry(list[j]))
      invariant Disjoint(copy[..])
    {
      var ips := CopySlice(list[i].ips);
      copy[i] := EndpointEntry(list[i].serviceName, list[i].weight, ips);
      i := i + 1;
    }
    assert ImagesOf(copy[..]) == old(ImagesOf(list[..]));
  }

  method CopyList(list: array?<EndpointEntry>) returns (copy: array?<EndpointEntry>)
    ensures fresh(ListStorage(copy)) && ImageOfList(copy) == old(ImageOfList(list))
    ensures copy != null ==> Disjoint(copy[..])
  {
    if list == null {
      return null;
    }
    copy := CopyEntries(list);
  }

  /** Structurally equal, in storage of its own; and, having no modifies clause,
      without a trace in the object copied or in anything else. */
  method Copy(ky: KanaryObject) returns (copy: KanaryObject)
    ensures fresh(copy.Storage()) && copy.Value() == old(ky.Value())
    ensures copy.endpoints != null ==> Disjoint(copy.endpoints[..])
  {
    copy := new KanaryObject();
    copy.name, copy.version, copy.destination := ky.name, ky.version, ky.destination;
    copy.recorded := ky.recorded;
    copy.routes := CopySlice(ky.routes);
    ImageKept(ky.endpoints);
    copy.endpoints := CopyList(ky.endpoints);
  }

  // ---------- the code: status updates ----------

  datatype Change = ConfigChange(name: string) | ProxyChange(name: string) | ServiceChange(name: string)
                  | EndpointsChange(list: Option<seq<EntryImage>>)

  function Recorded(img: Image, c: Change): Image {
    match c
    case ConfigChange(n) => img.(recorded := img.recorded.(configName := n))
    case ProxyChange(n) => img.(recorded := img.recorded.(proxyName := n))
    case ServiceChange(n) => img.(recorded := img.recorded.(serviceName := n))
    case EndpointsChange(list) => img.(endpoints := list)
  }

  /** The API server decodes what it is sent into objects of its own, and answers
      with the stored object at its new version, or not at all. */
  method Send(sent: KanaryObject, next: Option<nat>) returns (answer: KanaryObject?)
    ensures (answer == null) <==> next.None?
    ensures answer != null ==> fresh(answer.Storage()) && answer.Value() == old(sent.Value()).(version := next.value)
  {
    if next.None? {
      return null;
    }
    answer := Copy(sent);
    answer.version := next.value;
  }

  /** The answer to a status update made on ky: a new object, holding what ky held
      with the change applied, and no answer exactly when the call failed. */
  twostate predicate Answers(new answer: KanaryObject?, ky: KanaryObject, c: Change, next: Option<nat>)
    reads ky, answer, if answer != null then answer.Storage() else {}
  {
    && ((answer == null) <==> next.None?)
    && (answer != null ==>
          && fresh(answer.Storage())
          && answer.Value() == Recorded(old(ky.Value()), c).(version := next.value))
  }

  method UpdateStatusConfigMap(ky: KanaryObject, configMap: string, next: Option<nat>) returns (answer: KanaryObject?)
    ensures Answers(answer, ky, ConfigChange(configMap), next)
  {
    var copy := Copy(ky);
    copy.recorded := copy.recorded.(configName := configMap);
    answer := Send(copy, next);
  }

  method UpdateStatusDeployment(ky: KanaryObject, deployment: string, next: Option<nat>) returns (answer: KanaryObject?)
    ensures Answers(answer, ky, ProxyChange(deployment), next)
  {
    var copy := Copy(ky);
    copy.recorded := copy.recorded.(proxyName := deployment);
    answer := Send(copy, next);
  }

  method UpdateStatusService(ky: KanaryObject, service: string, next: Option<nat>) returns (answer: KanaryObject?)
    ensures Answers(answer, ky, ServiceChange(service), next)
  {
    var copy := Copy(ky);
    copy.recorded := copy.recorded.(serviceName := service);
    answer := Send(copy, next);
  }

  /** The copy takes the caller's list as it is; the answer shares nothing with it. */
  method UpdateStatusEndpoint(ky: KanaryObject, list: array?<EndpointEntry>, next: Option<nat>)
    returns (answer: KanaryObject?)
    ensures Answers(answer, ky, EndpointsChange(old(ImageOfList(list))), next)
  {
    var copy := Copy(ky);
    ImageKept(list);
    copy.endpoints := list;
    answer := Send(copy, next);
  }

  // ---------- any number of updates, one on the answer to the other ----------

  datatype StatusUpdate =
    | SetConfigName(name: string)
    | SetProxyName(name: string)
    | SetServiceName(name: string)
    | SetEndpoints(list: array?<EndpointEntry>)

  /** What an update says, its list read off the heap. */
  ghost function Meaning(u: StatusUpdate): Change
    reads if u.SetEndpoints? && u.list != null then {u.list} else {}
    reads if u.SetEndpoints? then ListStorage(u.list) else {}
  {
    match u
    case SetConfigName(n) => ConfigChange(n)
    case SetProxyName(n) => ProxyChange(n)
    case SetServiceName(n) => ServiceChange(n)
    case SetEndpoints(list) => EndpointsChange(ImageOfList(list))
  }

  function RecordedAll(img: Image, changes: seq<Change>, versions: seq<nat>): Image
    requires |changes| == |versions|
  {
    if changes == [] then img
    else
      var last := |changes| - 1;
      Recorded(RecordedAll(img, changes[..last], versions[..last]), changes[last]).(version := versions[last])
  }

  lemma NothingRecorded(img: Image)
    ensures RecordedAll(img, [], []) == img
  {
  }

  lemma OneMoreRecorded(img: Image, changes: seq<Change>, versions: seq<nat>, i: nat)
    requires |changes| == |versions| && i < |changes|
    ensures RecordedAll(img, changes[..i + 1], versions[..i + 1])
         == Recorded(RecordedAll(img, changes[..i], versions[..i]), changes[i]).(version := versions[i])
  {
    assert changes[..i + 1][..i] == changes[..i] && versions[..i + 1][..i] == versions[..i];
  }

  twostate lemma MeaningKept(u: StatusUpdate)
    requires u.SetEndpoints? && u.list != null ==> unchanged(u.list) && unchanged(AddressStorage(u.list[..]))
    ensures Meaning(u) == old(Meaning(u))
  {
    if u.SetEndpoints? {
      ImageKept(u.list);
    }
  }

  method UpdateStatus(ky: KanaryObject, u: StatusUpdate, next: Option<nat>) returns (answer: KanaryObject?)
    ensures Answers(answer, ky, old(Meaning(u)), next)
  {
    match u {
      case SetConfigName(n) => answer := UpdateStatusConfigMap(ky, n, next);
      case SetProxyName(n) => answer := UpdateStatusDeployment(ky, n, next);
      case SetServiceName(n) => answer := UpdateStatusService(ky, n, next);
      case SetEndpoints(list) => answer := UpdateStatusEndpoint(ky, list, next);
    }
  }

  /** Whatever updates follow a lookup in the cache, the cached object and the lists
      recorded keep their values, and the last answer adds up the changes. */
  method UpdateStatuses(cached: KanaryObject, updates: seq<StatusUpdate>, versions: seq<nat>, ghost changes: seq<Change>)
    returns (ky: KanaryObject)
    requires |updates| == |versions| == |changes|
    requires forall i :: 0 <= i < |updates| ==> Meaning(updates[i]) == changes[i]
    ensures ky.Value() == RecordedAll(old(cached.Value()), changes, versions)
    ensures ky == cached || fresh(ky.Storage())
    ensures cached.Value() == old(cached.Value())
    ensures forall i :: 0 <= i < |updates| ==> Meaning(updates[i]) == changes[i]
  {
    hide Meaning, Recorded, RecordedAll;
    ky := cached;
    var i := 0;
    assert RecordedAll(cached.Value(), changes[..0], versions[..0]) == cached.Value() by {
      NothingRecorded(cached.Value());
    }
    while i < |updates|
      invariant 0 <= i <= |updates|
      invariant ky.Value() == RecordedAll(old(cached.Value()), changes[..i], versions[..i])
      invariant ky == cached || fresh(ky.Storage())
      invariant cached.Value() == old(cached.Value())
      invariant forall j :: 0 <= j < |updates| ==> Meaning(updates[j]) == changes[j]
    {
      var answer := UpdateStatus(ky, updates[i], Some(versions[i]));
      ky := answer;
      ImageKept(cached.endpoints);
      forall j | 0 <= j < |updates| ensures Meaning(updates[j]) == changes[j] {
        MeaningKept(updates[j]);
      }
      OneMoreRecorded(old(cached.Value()), changes, versions, i);
      i := i + 1;
    }
    assert changes[..i] == changes && versions[..i] == versions;
  }

  // ---------- what the changes add up to ----------

  predicate SameField(c: Change, d: Change) {
    match c
    case ConfigChange(_) => d.ConfigChange?
    case ProxyChange(_) => d.ProxyChange?
    case ServiceChange(_) => d.ServiceChange?
    case EndpointsChange(_) => d.EndpointsChange?
  }

  predicate Shows(img: Image, c: Change) {
    match c
    case ConfigChange(n) => img.recorded.configName == n
    case ProxyChange(n) => img.recorded.proxyName == n
    case ServiceChange(n) => img.recorded.serviceName == n
    case EndpointsChange(list) => img.endpoints == list
  }

  /** Status updates never touch the name or the spec, and the last change of a
      status field is the one that shows. */
  lemma {:induction false} LastChangeShows(img: Image, changes: seq<Change>, versions: seq<nat>)
    requires |changes| == |versions|
    ensures var r := RecordedAll(img, changes, versions);
            && r.name == img.name && r.destination == img.destination && r.routes == img.routes
            && forall i :: 0 <= i < |changes| && (forall j :: i < j < |changes| ==> !SameField(changes[i], changes[j]))
                           ==> Shows(r, changes[i])
  {
    if changes == [] {
    } else {
      var last := |changes| - 1;
      LastChangeShows(img, changes[..last], versions[..last]);
      var before := RecordedAll(img, changes[..last], versions[..last]);
      forall i | 0 <= i < last && (forall j :: i < j < |changes| ==> !SameField(changes[i], changes[j]))
        ensures Shows(before, changes[i])
      {
        assert changes[i] == changes[..last][i];
      }
    }
  }

  /** ... and a status field nobody changed shows what it showed before. */
  lemma {:induction false} UnchangedFieldKept(img: Image, changes: seq<Change>, versions: seq<nat>, c: Change)
    requires |changes| == |versions| && Shows(img, c)
    requires forall i :: 0 <= i < |changes| ==> !SameField(c, changes[i])
    ensures Shows(RecordedAll(img, changes, versions), c)
  {
    if changes == [] {
    } else {
      var last := |changes| - 1;
      UnchangedFieldKept(img, changes[..last], versions[..last], c);
    }
  }

  // ---------- the values the rest of the model passes around ----------

  function AsList(e: EntryImage): KanaryEndpointList {
    KanaryEndpointList(e.serviceName, e.weight, e.ips.GetOr([]))
  }

  function AsLists(es: Option<seq<EntryImage>>): seq<KanaryEndpointList> {
    var entries := es.GetOr([]);
    seq(|entries|, i requires 0 <= i < |entries| => AsList(entries[i]))
  }

  function AsKanary(img: Image): Kanary {
    Kanary(img.name, img.version, KanarySpec(img.destination, img.routes.GetOr([])),
           KanaryStatus(img.recorded, AsLists(img.endpoints)))
  }

  function With(ky: Kanary, c: Change): Kanary {
    match c
    case ConfigChange(n) => ky.WithConfigName(n)
    case ProxyChange(n) => ky.WithProxyName(n)
    case ServiceChange(n) => ky.WithServiceName(n)
    case EndpointsChange(list) => ky.WithEndpoints(AsLists(list))
  }

  function WithAll(ky: Kanary, changes: seq<Change>, versions: seq<nat>): Kanary
    requires |changes| == |versions|
  {
    if changes == [] then ky
    else
      var last := |changes| - 1;
      With(WithAll(ky, changes[..last], versions[..last]), changes[last]).(version := versions[last])
  }

  /** Updates of heap objects and updates of values agree, whatever came before. */
  lemma {:induction false} CopiesActAsValues(img: Image, changes: seq<Change>, versions: seq<nat>)
    requires |changes| == |versions|
    ensures AsKanary(RecordedAll(img, changes, versions)) == WithAll(AsKanary(img), changes, versions)
  {
    if changes == [] {
    } else {
      var last := |changes| - 1;
      CopiesActAsValues(img, changes[..last], versions[..last]);
    }
  }
}
