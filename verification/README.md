# The Kanary controller in Dafny

Kanary is a Kubernetes operator for canary releases. A user writes a *Kanary*: a
destination name and weighted routes to existing services. For each Kanary the
controller keeps an HAProxy configuration in a ConfigMap, one proxy Deployment that
mounts it and one Service under the destination name that selects the proxy. It
also leaves the Kanary's name in the `kanaryRef` annotation of the Endpoints objects
it balances over, so that a change of pods wakes it up.

This project models what the controller decides, writes and promises, and proves it:

* `KanaryTypes`, `Lists`, `Decimal`: the data, and 64-bit decimal printing and parsing.
* `EndpointDiff`, `ExpectedStatus`: which addresses a Kanary should be served from,
  and when the recorded ones count as good enough.
* `Float32`, `HAProxy`, `ConfigText`: from an endpoint status to servers, their
  weights and names, to the text of the configuration and back.
* `BackRefs`: the edits of a `kanaryRef` list.
* `ApiStore`, `SyncProtocol`: the API server's versioned store, and one sync as a
  machine that makes one call per step.
* `SyncErrors`: which syncs return an error and are retried, and which are stuck for good.
* `KanaryController`: the controller's code as methods against that server; a whole
  sync is proved equal to a run of the machine, whatever faults its calls meet.
* `NonInterference`: what a sync reads and writes; syncs of different Kanaries commute.
* `FaultyRuns`, `FaultyInvariant`, `FaultyWrites`, `FaultySafety`: safety of every run
  in which syncs interleave call by call, calls fail or lose their reply, workers
  crash and listers are stale.
* `CalmSync`, `Views`, `FixedViews`: one fault-free sync on whatever its lister shows of
  the time since it began, and exactly when that makes a difference.
* `DeletionRuns`: the whole outcome of the deletion handler, undisturbed and under faults.
* `CalmRuns`, `Convergence`, `DanglingRefs`: what fault-free runs reach, and which
  Kanaries an Endpoints update wakes.
* `HalfSets`, `AnyViewRuns`: what becomes of a half-set Kanary, and what fault-free runs
  reach when their views may stop syncs.
* `WorkQueue`: the retry loop. `DeepCopy`: why cached objects are never changed.

Loops and state changes of the source are methods with loops, classes or arrays;
each is tied to a function, and the properties are lemmas about these functions.

## Assumptions

* All objects are in one namespace; API calls of one sync never leave it.
* The API server numbers its writes with one growing counter; the number of the last
  write of an object is its resource version. Updates of Kanaries, Endpoints and
  Deployments are accepted only at the current version, and an accepted one gives a new
  version even if it changes nothing; updates of ConfigMaps carry no version and are
  unconditional.
* A call is honoured, refused, or takes effect while its reply is lost. A lister shows
  for each object some version that was once stored.
* Users edit only specs. `reserved` maps each destination name to the Kanary that may
  use it; foreign Services have other names. Destinations are not empty, and routes are
  not empty except where a lemma says so.
* Nobody else deletes the ConfigMaps and Deployments of existing Kanaries, or creates,
  edits or deletes a Service under a reserved name, and nobody else writes `kanaryRef`.
  Statuses and versions of Deployments may change at any time.
* Faulty runs begin without Kanaries and without a ConfigMap, Deployment or Service under
  a name that Kanaries derive or reserve; everything else may exist.
* Fault-free runs: every call is honoured, and nothing else happens during a sync or
  during the deletion handler. A sync begins with current listers. From then on its
  Endpoints lister shows, at every call and for each object, any version the object has
  had since the sync began, so it may be behind the sync's own writes; the same holds for
  the deletion handler. A lister that does not change at all (`FixedViews`) and one that
  shows every write at once are the two extremes.
* The runs of `CalmRuns` and `DanglingRefs` are made of syncs that such a view cannot
  stop: what a sync records names no service twice, or the lister shows its writes at
  once. Without that condition the results fail (next section); `Views`, `Convergence`,
  `HalfSets` and `AnyViewRuns` say what happens instead. Deletions in all of these runs
  have any such view.
* In fault-free runs a Kanary is created under a name of which no objects are left;
  garbage collection may remove those of a deleted one, and then the name may return.

## Where the code and its documentation differ

* A numeric `servicePort` has an empty name half, and the port lookup accepts a port
  that matches either half. So it also accepts any unnamed port, both in place of a
  port that is offered (`NumericPortMisresolves`) and in place of one that is not
  (`UnofferedPortResolves`). `NumericPortResolves` says exactly when it goes right.
* The number found for a named port is given to the addresses of all subsets, so a port
  name with different numbers in different subsets can list what no subset offers
  (`NamedPortMismatch`); `EntryIsOffered` says exactly when every listed one is offered.
* Two routes to one service, say to two of its ports, are accepted. Their servers have
  the same names as soon as the service has an address (`ServerNamesUnique`). A sync adds
  a reference per route, and if the lister is still behind its first update, the second
  conflicts: the sync stops without an error, so without a retry, before proxy and
  service (`FixedViewSuffices`, `TwoRoutesToOneService`). The next sync completes these
  but adds no references, so while the expectation stays covered the services after the
  repeated one do not wake the Kanary (`ServiceAfterRepeatIsNotTold`). If the expectation has changed meanwhile, no sync
  completes anything, because there is no proxy to roll, and if it changes back, the
  Kanary is completed with the wrong configuration (`HalfSetSync`, `DetourStays`).
* The documented rule that weights add up to 100 is enforced nowhere; its two
  constants are unused. It is a hypothesis here (`HundredStaysHundred`, `HundredExactly`).
* The status comparison asks only whether recorded addresses contain the expected
  ones. So the removal of a pod does not change the configuration
  (`ScaleDownIsNotSeen`), and for an expectation without repeated entries and repeated
  addresses these are the only wrong skips (`WrongSkipIsScaleDown`). An expectation with
  a repetition can be skipped wrongly although nothing shrank (`RepeatedEntrySkips`,
  `RepeatedAddressSkips`), and only such a one can (`SafeExpectations`).
* An empty list of routes is accepted, and then the proxy is started without any
  configuration (`StagingNeedsRoutes`).
* The deletion handler cuts a list at index -1 when the Kanary is not in it.
  `DeletionOutcome` says exactly where it stops. For a Kanary that is listed everywhere
  its status says, it comes to its end exactly when the status names no service twice;
  otherwise it panics if the lister shows its own write, and errs on the conflict if not
  (`DeletionCompletes`). A crashed sync can leave a Kanary that is not listed, whose
  deletion panics too (`CrashBeforeRefsPanics`).
* A Kanary is never taken out of the list of a service that its routes have left, not
  even by its deletion. Its name then blocks the wake-up of every Kanary behind it
  (`DanglingNames`, `WokenUnlessStranded`).

## Model

| member | source | states |
|---|---|---|
| EndpointDiff.DeepEqualEndpointStatusList | pkg/controller/utils.go:68-80 | the loop with its accumulator answers true exactly when both lists are equally long and every expected entry is covered by a recorded one |
| EndpointDiff.HasEndpointStatus | pkg/controller/utils.go:82-89 | true exactly when some entry of the list covers the element |
| EndpointDiff.DeepEqualEndpointStatus | pkg/controller/utils.go:91-102 | true exactly when service and weight agree and every address of the first is an address of the second |
| EndpointDiff.ContainsString | pkg/controller/utils.go:104-111 | true exactly for the members of the slice |
| EndpointDiff.GetEltToDeleteIndex | pkg/controller/utils.go:113-120 | the first position of the element, -1 exactly when it is absent |
| EndpointDiff.CoversTransitive | pkg/controller/utils.go:68-102 | unconditionally, being covered is transitive; with the next row, a preorder |
| EndpointDiff.CoversReflexive | pkg/controller/utils.go:68-102 | a status covers itself, so regenerating it never starts again |
| EndpointDiff.ScaleDownIsNotSeen | pkg/controller/utils.go:97-99 | an expectation with one pod fewer is covered, although the lists are not equal in any order; the reverse is not covered |
| EndpointDiff.SkippingIsSafe | pkg/controller/utils.go:68-102 | for expected entries that are distinct (in service, weight or addresses) and have duplicate-free addresses, and sizes that agree, the comparison is true exactly when the lists are equal up to the order of services and addresses |
| EndpointDiff.WrongSkipIsScaleDown | pkg/controller/utils.go:91-102 | for such expectations, whatever the sizes: a skip leaves a status that differs exactly when some entry is covered only by entries with more addresses |
| EndpointDiff.SafeExpectations | pkg/controller/utils.go:68-102 | over all expectations, without hypotheses: every skip without a shrink leaves the expected status if and only if no entry and no address is repeated |
| EndpointDiff.RepeatedEntrySkips | pkg/controller/utils.go:82-89 | two equal routes, one of them edited to the other: the old address stays, with equal sizes |
| EndpointDiff.RepeatedAddressSkips | pkg/controller/utils.go:97-99 | an address listed twice is covered by a list that has another one in its second place |
| ExpectedStatus.VerifyEndpointPortExist | pkg/controller/utils.go:57-66 | the nested loops answer the first match over the ports of all subsets in order |
| ExpectedStatus.FirstMatchIsFirst | pkg/controller/utils.go:57-66 | for positive ports the answer is -1 exactly when no port passes the test, else the number of a passing port before which none passes |
| ExpectedStatus.NamedPortResolves | pkg/controller/utils.go:57-66 | over all lists of positive ports, a name is answered by the number of the first port of that name and refused exactly when there is none |
| ExpectedStatus.VisitedInOrder | pkg/controller/controller.go:422-427 | ports and addresses are visited subset by subset, each subset's in its own order, and all of them |
| ExpectedStatus.NumericPortResolves | pkg/controller/utils.go:60 | over all lists of positive ports, a number is answered by itself if offered and refused if not, exactly when no unnamed port comes before the first port of that number |
| ExpectedStatus.NumericPortMisresolves | pkg/controller/utils.go:60 | a concrete Endpoints object on which asking for port 8080 answers 80 |
| ExpectedStatus.UnofferedPortResolves | pkg/controller/utils.go:60-65 | a concrete Endpoints object that does not offer port 9999 and answers 80 instead of failing |
| ExpectedStatus.BuildExpectedEndpointStatus | pkg/controller/controller.go:408-433 | the three loops with their appends and early errors compute the expectation of the routes |
| ExpectedStatus.RouteAligned | pkg/controller/controller.go:408-433 | for positive port numbers, the build succeeds exactly when every route's Endpoints object exists and offers a matching port; entry i then has route i's service and weight and all addresses in order, each with the first matching port's number |
| HAProxy.NewHAProxyController | pkg/controller/haproxy_controller.go:65-82 | the nested loops compute the servers of the status, with float32 weights |
| HAProxy.ServersAreAddresses | pkg/controller/haproxy_controller.go:65-82 | the servers are exactly those of the addresses of the entries, named by service and position |
| HAProxy.ServersInOrder | pkg/controller/haproxy_controller.go:69-79 | the servers stand in the order of the entries and of their addresses, each at the position that the counts before it give, and there are no others |
| HAProxy.ServerNameInjective | pkg/controller/haproxy_controller.go:72 | a server name determines its service and position, also when service names contain dashes and digits |
| HAProxy.ServerNameEndsInPosition | pkg/controller/haproxy_controller.go:72 | behind the last dash of a server name stands the position's shortest decimal numeral |
| HAProxy.ServerNamesUnique | pkg/controller/haproxy_controller.go:69-76 | the server names of a whole configuration are pairwise distinct if and only if no service has addresses in two entries |
| ExpectedStatus.FullIPInjective | pkg/controller/controller.go:425 | an address with its port determines both, also for addresses with colons |
| ExpectedStatus.FullIPEndsInPort | pkg/controller/controller.go:425 | behind the last colon of a listed address stands the port's shortest decimal numeral |
| ExpectedStatus.EntryIsOffered | pkg/controller/controller.go:416-427 | every listed address and port is offered by some subset if and only if every address stands in a subset with the number of the first matching port among its own |
| ExpectedStatus.NamedPortMismatch | pkg/controller/controller.go:416-427 | a concrete Endpoints object with one port name and two numbers, whose second address is listed with the first one's number |
| HAProxy.WeightConserved | pkg/controller/haproxy_controller.go:73 | in exact arithmetic the servers of a service weigh together its route weight, and all servers the weights of the services that have an address |
| HAProxy.HundredStaysHundred | README.md:48 | route weights that add up to 100 give server weights that do, unless a weighted service has no address |
| HAProxy.HundredExactly | README.md:48 | when no weight is negative, the servers weigh 100 if and only if no weighted service is without addresses |
| HAProxy.SameServers | pkg/controller/haproxy_controller.go:65-82 | statuses equal up to order give the same multiset of service, address and weight |
| HAProxy.SkipKeepsServers | pkg/controller/controller.go:296-298 | for distinct expected entries with duplicate-free addresses, a skip without a shrink keeps exactly the servers that regenerating would give |
| Float32.RoundsToNearestEven | pkg/controller/haproxy_controller.go:73 | rounding keeps m units in the last place, m within the 24-bit significands, a nearest one and the even one on ties (section 4.3.1 of IEEE 754-2008) |
| Float32.RoundedIsFloat | pkg/controller/haproxy_controller.go:73 | the result is a 24-bit significand times a power of two |
| Float32.NoFloatIsNearer | pkg/controller/haproxy_controller.go:73 | no such number, of whatever exponent, is nearer to the exact value |
| Float32.TiesGoToEven | pkg/controller/haproxy_controller.go:73 | if another such number, of whatever exponent, is as near, the one with the even significand is taken |
| Float32.ShareIsNearest | pkg/controller/haproxy_controller.go:73 | for every positive weight and count the share is such a number, and the nearest one, ties to even, to the quotient of those nearest to the weight and to the count |
| Float32.SmallShareIsNearest | pkg/controller/haproxy_controller.go:73 | for weights and counts of at most 2^24 it is the one nearest, ties to even, to the exact share |
| Float32.ShareKeepsSign | pkg/controller/haproxy_controller.go:73 | a weight of zero gives zero shares, and a negative one those of its absolute value with the sign changed |
| Float32.ShareErrorSmall | pkg/controller/haproxy_controller.go:73 | for weights and counts of at most 2^24, n shares differ from the weight by at most w * 2^-24 |
| Float32.ShareErrorAny | pkg/controller/haproxy_controller.go:73 | for all positive weights and counts, by at most 4 * w * 2^-24 |
| ConfigText.GenerateConfig | pkg/controller/haproxy_controller.go:84-99 | filling the buffer section by section and server by server gives the rendering of the list |
| ConfigText.RenderLines | pkg/controller/haproxy_controller.go:41-49 | line by line and with all its blanks, the rendering is the template's frontend and backend headings and one line for each server, in order |
| ConfigText.ParseRender | pkg/controller/haproxy_controller.go:41-49 | read section by section, the frontend listens at port 80 only and hands over to the backend kanary, that backend has exactly the servers, in order, and no other backend has any; so exactly these are reached |
| ConfigText.RenderInjective | pkg/controller/haproxy_controller.go:47-50 | with a weight printer that tells the weights apart, two configurations have the same text exactly when they have the same servers |
| ConfigText.StatusReadsBack | pkg/controller/haproxy_controller.go:65-99 | for service names and addresses without white space, traffic to port 80 of a whole status's text reaches exactly its servers |
| BackRefs.AddKanaryRefInEp | pkg/controller/controller.go:488-516 | the edited copy carries the list with the owner added, an unreadable annotation is an error |
| BackRefs.AddRefSpec | pkg/controller/controller.go:501-503 | adding keeps a duplicate-free list so, keeps everybody and inserts the owner |
| BackRefs.ShiftLeft | pkg/controller/controller.go:530 | the slice deletion in its own storage: everything after the index moves one place left, the last cell keeps its value |
| BackRefs.DeleteKanaryRef | pkg/controller/controller.go:526-535 | decoding, search and in-place deletion give the list without the owner's first occurrence, a decoding error or a panic |
| BackRefs.DeleteRefSpec | pkg/controller/controller.go:529-530 | deleting from a duplicate-free list removes the owner and nobody else |
| BackRefs.DeleteRefIsOthers | pkg/controller/controller.go:529-530 | from a duplicate-free list the slice deletion leaves exactly the other names, in their order |
| SyncProtocol.RolledRevision | pkg/controller/controller.go:550-555 | printing and parsing around the increment lose nothing: revision n becomes n + 1, in 64-bit arithmetic |
| SyncProtocol.UnreadableRevision | pkg/controller/controller.go:550-555 | a revision that is no number rolls to 1 |
| Decimal.ItoaIsShortest | pkg/controller/controller.go:425 | a printed number is its one numeral without superfluous zeros; every other numeral of it is longer and begins with zero |
| Decimal.ItoaOfNegative | pkg/controller/controller.go:555 | a negative number, as an overflow leaves it, is printed as its absolute value behind a minus sign |
| Decimal.AtoiReads | pkg/controller/controller.go:550 | exactly the 64-bit integers are read, each from exactly its spellings: an optional sign, zeros and the shortest numeral |
| Decimal.WrapIsCongruent | pkg/controller/controller.go:555 | what is left of an overflow differs from the exact sum by a multiple of 2^64 |
| SyncErrors.SyncErrs | pkg/controller/controller.go:266-405 | over all stores, lookups, views and faults, a sync returns an error if and only if the lookup failed otherwise than by the Kanary's absence or the last status write was refused |
| SyncErrors.RunErrs | pkg/controller/controller.go:289-401 | every call of a sync but its last is accepted by the server, so the first refused call ends the sync |
| SyncErrors.EditedMeanwhile | pkg/controller/controller.go:398-401 | a spec edited between the creation of the service and the last status write makes that write conflict and the sync err |
| SyncErrors.UnrecordedBlocks | pkg/controller/controller.go:298-303 | if the object that the sync is to create is there and not recorded, no sync changes anything or errs, whatever its calls meet |
| KanaryController.Controller.PerformRollingUpdate | pkg/controller/controller.go:544-558 | get, bump the revision, update: the two roll steps of the protocol, an error at any of them ending the sync |
| KanaryController.Controller.RecordStatus | pkg/controller/controller.go:326-335 | the config name and then the endpoints are recorded, each on the object the previous write returned |
| KanaryController.Controller.AddBackRefs | pkg/controller/controller.go:338-354 | the loop over the recorded services is the protocol's sequence of reference steps |
| KanaryController.Controller.SyncService | pkg/controller/controller.go:374-401 | nothing, create, or delete and create, then record; it returns an error if and only if the record is called for and refused |
| KanaryController.Controller.SyncKanary | pkg/controller/controller.go:266-405 | for every script of faults and stale listers the sync leaves the store and returns the error that the run of the step machine does, which is an error if and only if the lookup failed or the last status write was refused |
| KanaryController.Controller.UpdateEndpoint | pkg/controller/controller.go:238-259 | the handler enqueues the live prefix of the old object's list |
| KanaryController.LivePrefixIsLongest | pkg/controller/controller.go:248-256 | the live prefix is a prefix, all live, and ends only at a name that is not live |
| KanaryController.WokenExactly | pkg/controller/controller.go:248-256 | a name is woken exactly when it and every name before it are live |
| KanaryController.Controller.DeleteKyRefInEp | pkg/controller/controller.go:518-542 | the loop of reads, edits and updates does what its call-by-call description does, stopping at the first error or panic |
| DeletionRuns.DeletionOutcome | pkg/controller/controller.go:518-542 | undisturbed on duplicate-free lists and on any recent views, the handler strikes its Kanary from the lists of the recorded services up to the first that cannot be struck and from no others; there it errs if the list is missing or unreadable and panics if the Kanary was never in it; at a service it has struck before it panics on an up-to-date lister and errs on a fixed one |
| DeletionRuns.DeletionStrikes | pkg/controller/controller.go:518-542 | on any lists and any recent views it changes nothing but lists, and of these only its own Kanary's name goes; all other names keep their order |
| DeletionRuns.DeletionCompletes | pkg/controller/controller.go:518-542 | for a Kanary listed everywhere its status says, on any recent views, it ends without error and panic, leaving exactly the other names in all those lists, if and only if no service is named twice; otherwise it never errs on an up-to-date lister and never panics on a fixed one |
| DeletionRuns.CrashBeforeRefsPanics | pkg/controller/controller.go:331-354 | a sync that crashes between recording its endpoints and adding itself to the first list leaves a Kanary whose deletion panics if that list names another |
| DeletionRuns.DeletionUnderFaults | pkg/controller/controller.go:225-232 | under any faults and stale listers the handler's writes are reference deletions of its own Kanary, and the invariant of all faulty runs holds after it |
| FaultySafety.EventKeepsInv | pkg/controller/controller.go:266-405 | every call of every interleaved sync, every fault, crash and environment event keeps the invariant |
| FaultySafety.StatusIsStaged | pkg/controller/controller.go:289-401 | in every reachable faulty state endpoints and proxy imply a config name, and a service name implies a proxy |
| FaultySafety.StatusIsBacked | pkg/controller/controller.go:304-400 | in every reachable faulty state a recorded config and proxy exist, and a recorded service does unless a sync deleted it and none completed the status write since |
| FaultySafety.TrafficReachesOwnProxy | pkg/controller/haproxy_controller.go:101-147 | in every reachable faulty state a recorded service that exists selects the pods of the Kanary's own proxy, which mounts the Kanary's own, existing ConfigMap |
| FaultySafety.RevisionCountsRolls | pkg/controller/controller.go:304-322 | in every reachable faulty state the proxy's revision reads, in 64-bit arithmetic, as 1 plus its successful rolls, a number that never exceeds the successful writes of its ConfigMap |
| FaultySafety.ReferencesAreExact | pkg/controller/controller.go:488-542 | over all interleavings a list has no duplicates and names exactly the Kanaries whose last successful operation on the object was an addition |
| FaultySafety.OnlyOwnersChangeReferences | pkg/controller/controller.go:338-354 | a name enters a list only by its own sync and leaves it only by its own deletion handler |
| FaultySafety.SyncUnderFaults | pkg/controller/controller.go:266-405 | a whole sync under faults is a sequence of calls of the faulty runs, so it keeps their invariant |
| NonInterference.SyncKeepsOthers | pkg/controller/controller.go:266-405 | a fault-free sync writes only its own Kanary, ConfigMap, Deployment and destinations; each list stays as it is or gets its name at the end |
| NonInterference.SyncAlike | pkg/controller/controller.go:266-405 | it reads only these: on stores that agree on them it gives stores that do |
| NonInterference.SyncsCommute | pkg/controller/controller.go:266-405 | on an up-to-date lister, syncs of two Kanaries with disjoint current and recorded destinations commute up to versions and the order of names in lists; every name occurs equally often, and the same annotations are absent |
| Views.SyncsCommuteOnAnyView | pkg/controller/controller.go:266-405 | the same on any recent views, if these are up to date or nothing recorded names a service twice |
| Views.RecentSyncKeepsOthers | pkg/controller/controller.go:266-405 | on any recent views, repeated services included, a fault-free sync writes only what is its own and never its spec |
| KanaryTypes.DerivedNamesInjective | pkg/controller/haproxy_controller.go:128 | different Kanaries never share a ConfigMap or Deployment name |
| HAProxy.DerivedNamesReadBack | pkg/controller/haproxy_controller.go:104-132 | behind the last dash of a derived name stands what the object is, before it the Kanary's name |
| Views.ViewDoesNotMatter | pkg/controller/controller.go:337-354 | when the expectation names no service twice, a fault-free sync ends in the same store with the same answer on every recent view |
| Views.OutcomeOnAnyView | pkg/controller/controller.go:266-405 | from a blank or complete status, on any recent views, a fault-free sync that builds an expectation ends complete, with the expectation covered and the current destination published, or without an error at a service named twice, with configuration and endpoints recorded, the entries before referenced and proxy and service as before; without an expectation it changes nothing |
| Views.SyncAfterPause | pkg/controller/controller.go:296-404 | after such a stop the next sync, on any recent views, completes everything but the references, and then no sync writes anything |
| FixedViews.FixedViewSuffices | pkg/controller/controller.go:337-354 | on a lister that does not change during the sync, a sync that writes its configuration leaves the store of an up-to-date sync if and only if it names no service twice |
| FixedViews.FirstSyncOnFixedView | pkg/controller/controller.go:266-405 | the first sync of a Kanary on such a lister never errs; it ends complete and listed everywhere if and only if no service is named twice, and half set otherwise |
| FixedViews.TwoRoutesToOneService | pkg/controller/controller.go:337-354 | so a Kanary with two routes to one service is left half set, without a retry |
| FixedViews.ServiceAfterRepeatIsNotTold | pkg/controller/controller.go:337-354 | a service first named after a repeated one does not list the Kanary after that sync, nor after the next, which completes the rest, and then no sync writes anything |
| HalfSets.FirstSyncLeavesHalfWay | pkg/controller/controller.go:266-354 | such a first sync leaves the objects as the half-set status says: a ConfigMap, no proxy and no service |
| HalfSets.HalfSetSync | pkg/controller/controller.go:296-322 | a later sync on any views completes a half-set Kanary if and only if the recorded endpoints still cover the expectation; otherwise it only replaces the ConfigMap, ends without an error and leaves it half set |
| HalfSets.DetourStays | pkg/controller/controller.go:296-404 | a half-set Kanary whose Endpoints change and change back, with a sync after each, ends all set and quiet, publishing the configuration of the detour |
| AnyViewRuns.EventKeepsShapes | pkg/controller/controller.go:225-405 | fault-free syncs on whatever recent views, deletions, garbage collection and the environment keep every Kanary blank or written: configuration and endpoints recorded, a ConfigMap there, and proxy and service both recorded and there or both not |
| AnyViewRuns.BlankHalfOrAllSet | pkg/controller/controller.go:266-405 | so at every boundary of runs on any recent views a status is blank, half set with objects to match, or all set with the objects it names |
| AnyViewRuns.RunBlind | pkg/controller/controller.go:296-404 | what a ConfigMap says and how often it was written never steers a sync |
| Views.FixpointOnAnyView | pkg/controller/controller.go:296-404 | after one sync that names no service twice, and after two on any recent views, no sync on the same spec and endpoints writes anything |
| Convergence.RoundReachesFixpoint | pkg/controller/controller.go:296-404 | at any boundary of a fault-free run, a round in any order and on any recent views that syncs every Kanary twice, or once on a view that cannot stop it, reaches a state that no sync changes |
| CalmRuns.EventKeepsGood | pkg/controller/controller.go:225-405 | fault-free syncs that their views cannot stop, deletions with their handler, garbage collection and the environment keep every Kanary blank or complete |
| CalmRuns.AllBlankOrAllSet | pkg/controller/controller.go:326-401 | at every boundary of runs of such syncs the four status parts are all blank or all set |
| CalmRuns.ConfigAgrees | pkg/controller/controller.go:290-335 | at every such boundary with a config name the ConfigMap's text is the rendering of the recorded status, and the proxy's revision is, in 64-bit arithmetic, the number of its writes |
| CalmRuns.EveryAddressIsServed | pkg/controller/controller.go:290-335 | after a sync of such a run that built an expectation every expected address is a server of its service in the published text, and, if names and addresses are words, one that traffic to port 80 reaches |
| CalmRuns.UpdatesWakeListeners | pkg/controller/controller.go:337-354 | while Endpoints objects persist and views cannot stop syncs, each object lists every live Kanary whose status names it, and its update wakes such a Kanary exactly when all names before it are live, so always when no name dangles |
| DanglingRefs.DanglingNames | pkg/controller/controller.go:518-542 | in such runs from empty lists, with names that return after garbage collection, a list holds the name of no Kanary exactly when the last deletion under that name left it there |
| DanglingRefs.StrandedByLeavingRoutes | pkg/controller/controller.go:518-542 | while Endpoints objects persist, a deletion leaves the name exactly in the lists of services that the Kanary's status no longer names, if it names none twice |
| DanglingRefs.WokenUnlessStranded | pkg/controller/controller.go:238-259 | in such runs an update wakes a Kanary whose status names the service exactly when no name left behind by a deletion comes before it |
| CalmRuns.StagingNeedsRoutes | pkg/controller/utils.go:69-71 | from a blank status one sync records a proxy without a config, and its pods mount none, exactly when the routes are empty |
| WorkQueue.Worker.EnqueueKanary | pkg/controller/controller.go:134-142 | the key waits for its delay whether or not it is pending or processed, its counter is one higher, and no other key is affected |
| WorkQueue.Worker.HandleErr | pkg/controller/controller.go:194-209 | a failure below the limit leaves the key waiting with its counter one higher; success and the failure at the limit clear the counter and add nothing; no other key is affected |
| WorkQueue.Worker.Run | pkg/controller/controller.go:177-192 | the loop is a run of the queue, with the syncs' outcomes in the order given, that empties it, delayed keys included; every key is synced, there are at least as many syncs as keys and at most the budget, and a new key that is alone and fails 16 times is synced 16 times |
| WorkQueue.EveryKeyIsSynced | pkg/controller/controller.go:182-192 | in every run without new events that drains the queue each key is synced, and there are at least as many syncs as keys |
| WorkQueue.KeyIsRetried | pkg/controller/controller.go:194-209 | in such a run a key that is in one place is synced until it first succeeds, or until it has failed once more than its counter leaves to the limit, so 16 times for a new key |
| WorkQueue.CounterCounts | pkg/controller/controller.go:200-203 | without a Forget the counter is the number of failures and event enqueues |
| WorkQueue.RetryBound | pkg/controller/controller.go:194-209 | between two Forgets a key fails at most maxRetries + 1 times, exactly so often when the second Forget is a failure's and no event enqueued it |
| WorkQueue.RunsAreBounded | pkg/controller/controller.go:177-209 | with no new events no interleaving of workers and ends of delays is longer than the cost of the first state, where a key may be delayed, pending and processed at once |
| WorkQueue.StuckMeansEmpty | pkg/controller/controller.go:182-192 | a state in which no worker can move and no delay can end has an empty queue |
| DeepCopy.Copy | pkg/apis/kanary/v1/zz_generated.deepcopy.go:44-61 | the copy is structurally equal, nil slices included, in fresh storage with address lists disjoint from each other, and nothing that existed changes |
| DeepCopy.CopyEntries | pkg/apis/kanary/v1/zz_generated.deepcopy.go:180-192 | the loop copies every entry with storage of its own |
| DeepCopy.UpdateStatusEndpoint | pkg/controller/controller.go:435-440 | the answer is a new object with the endpoints set, sharing nothing with the list it was given |
| DeepCopy.UpdateStatusConfigMap | pkg/controller/controller.go:442-447 | the answer is a new object with the config name set and everything else as it was |
| DeepCopy.UpdateStatusDeployment | pkg/controller/controller.go:449-454 | the same for the proxy name |
| DeepCopy.UpdateStatusService | pkg/controller/controller.go:456-461 | the same for the service name |
| DeepCopy.UpdateStatuses | pkg/controller/controller.go:435-461 | no sequence of status updates changes the cached object or the recorded lists; the last answer adds up the changes |
| DeepCopy.LastChangeShows | pkg/controller/controller.go:435-461 | updates never touch name and spec, and the last change of each status field shows |
| DeepCopy.UnchangedFieldKept | pkg/controller/controller.go:435-461 | a status field that no update changed keeps its value |
| DeepCopy.CopiesActAsValues | pkg/controller/controller.go:435-461 | sequences of updates of heap objects and of the values the rest of the model uses agree |

## Left out

- Namespaces and keys: `MetaNamespaceKeyFunc` and `SplitMetaNamespaceKey` are identities here, and a malformed key does not occur.
- The JSON codec of `kanaryRef`: an annotation is absent, malformed or a list of strings, and reading a written list gives the list. Malformed means syntactically wrong; a partly decoded list of mixed types is not modelled.
- The generated clientset, informers and listers: network plumbing; a lister is any past version of each object.
- The work queue's internals and the lengths of its delays: a key is delayed, pending, being processed or several of these, a delay may end at any time, and the counter is reset by Forget.
- Owner references as data: garbage collection is an event of the fault-free runs that removes the ConfigMap, the Deployment and any of the Services of a deleted Kanary at once; in faulty runs such objects stay.
- What the published text and the `kanaryRef` lists say in runs whose views may stop syncs: `AnyViewRuns` has the shapes of statuses and objects, `HalfSets` and `FixedViews` have inputs on which text and lists are wrong.
- Liveness after faults: an object that was created but not recorded blocks its Kanary for good (`UnrecordedBlocks`), so faulty runs have safety only.
- The handlers' concurrency with syncs: in faulty runs any reference deletion of any Kanary may happen at any time, which includes the handler's.
- The template text before the frontend section, container images, commands, ports, volumes other than the ConfigMap's, and all labels but the proxy label: constants.
- Template errors: the template is fixed and its fields exist, so rendering does not fail.
- Go's printing of a float32 weight: the printer is a parameter; where a lemma needs it to give words or to be injective, it says so.
- Events, log lines, message texts, random names, signals, health and metrics routes and `main`: they touch none of the modelled state.
- `addEndpoint`, `deleteEndpoint`, `addKanary` and `updateKanary`: empty, or a single enqueue.
- Object metadata other than name, version and `kanaryRef`, in copies too: its copying is not part of the repository.
