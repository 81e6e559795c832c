/** Deciding whether the recorded endpoint status still describes the expected
    one (pkg/controller/utils.go), and what a positive answer guarantees. */
module EndpointDiff {
  import opened KanaryTypes
  import opened Lists

  // ---------- what the loops decide ----------

  /** b describes a: same service and weight, and every address of a is in b. */
  predicate Covers(b: KanaryEndpointList, a: KanaryEndpointList) {
    && a.serviceName == b.serviceName
    && a.weight == b.weight
    && forall ip :: ip in a.ips ==> ip in b.ips
  }

  predicate SomeCovers(bs: seq<KanaryEndpointList>, a: KanaryEndpointList) {
    exists j :: 0 <= j < |bs| && Covers(bs[j], a)
  }

  predicate StatusCovers(expected: seq<KanaryEndpointList>, recorded: seq<KanaryEndpointList>) {
    && |expected| == |recorded|
    && forall i :: 0 <= i < |expected| ==> SomeCovers(recorded, expected[i])
  }

  method ContainsString(slice: seq<string>, elem: string) returns (found: bool)
    ensures found <==> elem in slice
  {
    for i := 0 to |slice|
      invariant elem !in slice[..i]
    {
      if slice[i] == elem {
        return true;
      }
    }
    return false;
  }

  /** The first position of elt, or -1. */
  method GetEltToDeleteIndex(slice: seq<string>, elt: string) returns (index: int)
    ensures -1 <= index < |slice|
    ensures index == -1 <==> elt !in slice
    ensures index >= 0 ==> slice[index] == elt && elt !in slice[..index]
  {
    for i := 0 to |slice|
      invariant elt !in slice[..i]
    {
      if slice[i] == elt {
        return i;
      }
    }
    return -1;
  }

  method DeepEqualEndpointStatus(a: KanaryEndpointList, b: KanaryEndpointList) returns (result: bool)
    ensures result <==> Covers(b, a)
  {
    result := true;
    result := result && a.serviceName == b.serviceName;
    result := result && a.weight == b.weight;
    for i := 0 to |a.ips|
      invariant result <==> (a.serviceName == b.serviceName && a.weight == b.weight
                             && forall ip :: ip in a.ips[..i] ==> ip in b.ips)
    {
      var contained := ContainsString(b.ips, a.ips[i]);
      assert a.ips[..i + 1] == a.ips[..i] + [a.ips[i]];
      result := result && contained;
    }
    assert a.ips[..|a.ips|] == a.ips;
  }

  method HasEndpointStatus(slice: seq<KanaryEndpointList>, elem: KanaryEndpointList) returns (found: bool)
    ensures found <==> SomeCovers(slice, elem)
  {
    for i := 0 to |slice|
      invariant forall j :: 0 <= j < i ==> !Covers(slice[j], elem)
    {
      var equal := DeepEqualEndpointStatus(elem, slice[i]);
      if equal {
        return true;
      }
    }
    return false;
  }

  method DeepEqualEndpointStatusList(listA: seq<KanaryEndpointList>, listB: seq<KanaryEndpointList>)
    returns (result: bool)
    ensures result <==> StatusCovers(listA, listB)
  {
    if |listA| == |listB| && |listA| == 0 {
      return true;
    }
    if |listA| != |listB| {
      return false;
    }
    result := true;
    for i := 0 to |listA|
      invariant result <==> forall k :: 0 <= k < i ==> SomeCovers(listB, listA[k])
    {
      var has := HasEndpointStatus(listB, listA[i]);
      result := result && has;
    }
  }

  // ---------- the answer is a preorder, and not an equality ----------

  lemma CoversReflexive(a: seq<KanaryEndpointList>)
    ensures StatusCovers(a, a)
  {
    forall i | 0 <= i < |a| ensures SomeCovers(a, a[i]) {
      assert Covers(a[i], a[i]);
    }
  }

  lemma CoversTransitive(a: seq<KanaryEndpointList>, b: seq<KanaryEndpointList>, c: seq<KanaryEndpointList>)
    requires StatusCovers(a, b) && StatusCovers(b, c)
    ensures StatusCovers(a, c)
  {
    forall i | 0 <= i < |a| ensures SomeCovers(c, a[i]) {
      var j :| 0 <= j < |b| && Covers(b[j], a[i]);
      assert SomeCovers(c, b[j]);
      var k :| 0 <= k < |c| && Covers(c[k], b[j]);
      assert Covers(c[k], a[i]);
    }
  }

  /** Removing a pod is not seen: the smaller expectation is covered by the old
      status, while the old status is not covered by it. */
  lemma ScaleDownIsNotSeen()
    ensures var two := [KanaryEndpointList("app", 100, ["10.0.0.1:80", "10.0.0.2:80"])];
            var one := [KanaryEndpointList("app", 100, ["10.0.0.1:80"])];
            StatusCovers(one, two) && !StatusCovers(two, one) && !SameUpToOrder(one, two)
  {
    var two := [KanaryEndpointList("app", 100, ["10.0.0.1:80", "10.0.0.2:80"])];
    var one := [KanaryEndpointList("app", 100, ["10.0.0.1:80"])];
    assert Covers(two[0], one[0]);
    assert "10.0.0.2:80" in two[0].ips;
    assert !Covers(one[0], two[0]) by {
      assert one[0].ips[0] != "10.0.0.2:80" by { assert "10.0.0.1:80"[7] != "10.0.0.2:80"[7]; }
    }
    assert StatusCovers(one, two);
    assert !SomeCovers(one, two[0]);
    if SameUpToOrder(one, two) {
      SameIsCovered(two, one);
    }
  }

  // ---------- when the answer is equality up to reordering ----------

  datatype Normal = Normal(serviceName: string, weight: int, ips: multiset<string>)

  ghost function NormalOf(e: KanaryEndpointList): Normal {
    Normal(e.serviceName, e.weight, multiset(e.ips))
  }

  ghost function NormalsOf(es: seq<KanaryEndpointList>): (r: seq<Normal>)
    ensures |r| == |es| && forall i :: 0 <= i < |es| ==> r[i] == NormalOf(es[i])
  {
    seq(|es|, i requires 0 <= i < |es| => NormalOf(es[i]))
  }

  /** Equality up to the order of the services and of the addresses of each. */
  ghost predicate SameUpToOrder(a: seq<KanaryEndpointList>, b: seq<KanaryEndpointList>) {
    multiset(NormalsOf(a)) == multiset(NormalsOf(b))
  }

  ghost predicate DistinctServices(es: seq<KanaryEndpointList>) {
    forall i, j :: 0 <= i < j < |es| ==> es[i].serviceName != es[j].serviceName
  }

  /** One of the first n entries of es is for the service. */
  ghost predicate Among(es: seq<KanaryEndpointList>, n: nat, service: string) {
    exists j :: 0 <= j < n && j < |es| && es[j].serviceName == service
  }

  /** es[j] is for a service that an earlier entry is for. */
  ghost predicate Repeats(es: seq<KanaryEndpointList>, j: nat) {
    j < |es| && Among(es, j, es[j].serviceName)
  }

  lemma AmongOneMore(es: seq<KanaryEndpointList>, n: nat, service: string)
    requires n < |es|
    ensures Among(es, n + 1, service) <==> Among(es, n, service) || es[n].serviceName == service
  {
  }

  lemma DistinctMeansNoRepeat(es: seq<KanaryEndpointList>)
    ensures DistinctServices(es) <==> forall j: nat :: !Repeats(es, j)
  {
    if i, j :| 0 <= i < j < |es| && es[i].serviceName == es[j].serviceName {
      assert Repeats(es, j);
    }
    if j: nat :| Repeats(es, j) {
      var i :| 0 <= i < j && es[i].serviceName == es[j].serviceName;
    }
  }

  ghost predicate DistinctAddresses(es: seq<KanaryEndpointList>) {
    forall i :: 0 <= i < |es| ==> NoDup(es[i].ips)
  }

  /** No two entries agree in service, weight and addresses. */
  ghost predicate DistinctEntries(es: seq<KanaryEndpointList>) {
    NoDup(NormalsOf(es))
  }

  /** Some entry of a is covered only by entries of b with more addresses. */
  ghost predicate SomeEntryShrank(a: seq<KanaryEndpointList>, b: seq<KanaryEndpointList>) {
    exists i :: 0 <= i < |a| && Shrank(a[i], b)
  }

  ghost predicate Shrank(e: KanaryEndpointList, b: seq<KanaryEndpointList>) {
    forall j :: 0 <= j < |b| && Covers(b[j], e) ==> |e.ips| < |b[j].ips|
  }

  ghost predicate SameSizes(a: seq<KanaryEndpointList>, b: seq<KanaryEndpointList>) {
    forall i, j :: 0 <= i < |a| && 0 <= j < |b| && a[i].serviceName == b[j].serviceName ==> |a[i].ips| == |b[j].ips|
  }

  lemma NormalsWithoutCommute(es: seq<KanaryEndpointList>, j: nat)
    requires j < |es|
    ensures NormalsOf(Without(es, j)) == Without(NormalsOf(es), j)
  {
  }

  /** Equality up to order always makes the diff answer true. */
  lemma SameIsCovered(a: seq<KanaryEndpointList>, b: seq<KanaryEndpointList>)
    requires SameUpToOrder(a, b)
    ensures StatusCovers(a, b)
  {
    assert |a| == |multiset(NormalsOf(a))| == |b|;
    forall i | 0 <= i < |a| ensures SomeCovers(b, a[i]) {
      assert NormalsOf(a)[i] in multiset(NormalsOf(b));
      var j :| 0 <= j < |b| && NormalsOf(b)[j] == NormalOf(a[i]);
      forall ip | ip in a[i].ips ensures ip in b[j].ips {
        assert ip in multiset(b[j].ips);
      }
      assert Covers(b[j], a[i]);
    }
  }

  lemma SameDoesNotShrink(a: seq<KanaryEndpointList>, b: seq<KanaryEndpointList>)
    requires SameUpToOrder(a, b)
    ensures !SomeEntryShrank(a, b)
  {
    forall i | 0 <= i < |a| ensures !Shrank(a[i], b) {
      assert NormalsOf(a)[i] in multiset(NormalsOf(b));
      var j :| 0 <= j < |b| && NormalsOf(b)[j] == NormalOf(a[i]);
      forall ip | ip in a[i].ips ensures ip in b[j].ips {
        assert ip in multiset(b[j].ips);
      }
      assert |a[i].ips| == |multiset(a[i].ips)| == |multiset(b[j].ips)|;
      assert Covers(b[j], a[i]);
    }
  }

  /** The pigeonhole half, used twice: on the addresses of each entry, and on the
      entries. A covered list of distinct entries, none of which shrank, is the
      recorded list reordered. */
  lemma CoveredIsSame(a: seq<KanaryEndpointList>, b: seq<KanaryEndpointList>)
    requires StatusCovers(a, b)
    requires DistinctEntries(a) && DistinctAddresses(a) && !SomeEntryShrank(a, b)
    ensures SameUpToOrder(a, b)
  {
    forall n | n in NormalsOf(a) ensures n in NormalsOf(b) {
      var i :| 0 <= i < |a| && NormalsOf(a)[i] == n;
      assert !Shrank(a[i], b);
      var j :| 0 <= j < |b| && Covers(b[j], a[i]) && |a[i].ips| >= |b[j].ips|;
      Pigeonhole(a[i].ips, b[j].ips);
      assert NormalsOf(b)[j] == n;
    }
    Pigeonhole(NormalsOf(a), NormalsOf(b));
  }

  lemma SameSizesDoNotShrink(a: seq<KanaryEndpointList>, b: seq<KanaryEndpointList>)
    requires StatusCovers(a, b) && SameSizes(a, b)
    ensures !SomeEntryShrank(a, b)
  {
    forall i | 0 <= i < |a| ensures !Shrank(a[i], b) {
      assert SomeCovers(b, a[i]);
    }
  }

  /** When the diff is an equality: for distinct expected entries with duplicate-free
      addresses whose sizes agree with the recorded ones. Two routes may go to one
      service, as long as they differ in weight or in port. */
  lemma SkippingIsSafe(expected: seq<KanaryEndpointList>, recorded: seq<KanaryEndpointList>)
    requires DistinctEntries(expected) && DistinctAddresses(expected) && SameSizes(expected, recorded)
    ensures StatusCovers(expected, recorded) <==> SameUpToOrder(expected, recorded)
  {
    if StatusCovers(expected, recorded) {
      SameSizesDoNotShrink(expected, recorded);
      CoveredIsSame(expected, recorded);
    }
    if SameUpToOrder(expected, recorded) {
      SameIsCovered(expected, recorded);
    }
  }

  /** For such expectations a skip leaves a status that differs if and only if some
      entry lost addresses. */
  lemma WrongSkipIsScaleDown(expected: seq<KanaryEndpointList>, recorded: seq<KanaryEndpointList>)
    requires DistinctEntries(expected) && DistinctAddresses(expected)
    requires StatusCovers(expected, recorded)
    ensures !SameUpToOrder(expected, recorded) <==> SomeEntryShrank(expected, recorded)
  {
    if SameUpToOrder(expected, recorded) {
      SameDoesNotShrink(expected, recorded);
    }
    if !SomeEntryShrank(expected, recorded) {
      CoveredIsSame(expected, recorded);
    }
  }

  // ---------- the other wrong skips ----------

  /** One entry replaced by a different one is never the same list reordered. */
  lemma ReplacedDiffers(es: seq<KanaryEndpointList>, j: nat, r: KanaryEndpointList)
    requires j < |es| && NormalOf(r) != NormalOf(es[j])
    ensures !SameUpToOrder(es, es[j := r])
  {
    var n := NormalsOf(es);
    assert NormalsOf(es[j := r]) == n[j := NormalOf(r)];
    assert multiset(n[j := NormalOf(r)])[NormalOf(r)] == multiset(n)[NormalOf(r)] + 1;
  }

  /** Every other entry covers itself, so only the replaced one needs a cover. */
  lemma ReplacedIsCovered(es: seq<KanaryEndpointList>, j: nat, r: KanaryEndpointList, i: nat)
    requires i < |es| && j < |es|
    requires Covers(es[j := r][i], es[j]) && |es[j := r][i].ips| == |es[j].ips|
    ensures StatusCovers(es, es[j := r]) && !SomeEntryShrank(es, es[j := r])
  {
    var rs := es[j := r];
    forall k | 0 <= k < |es| ensures SomeCovers(rs, es[k]) && !Shrank(es[k], rs) {
      var c := if k == j then i else k;
      assert Covers(rs[c], es[k]) && |rs[c].ips| == |es[k].ips|;
    }
  }

  /** Two routes to one service with the same weight and port: editing one of them
      to that from another leaves the old addresses in place. */
  lemma RepeatedEntrySkips(x: string, y: string)
    requires x != y
    ensures var expected := [KanaryEndpointList("app", 50, [x]), KanaryEndpointList("app", 50, [x])];
            var recorded := [KanaryEndpointList("app", 50, [x]), KanaryEndpointList("app", 50, [y])];
            SameSizes(expected, recorded) && StatusCovers(expected, recorded) && !SameUpToOrder(expected, recorded)
  {
    var e, r := KanaryEndpointList("app", 50, [x]), KanaryEndpointList("app", 50, [y]);
    assert multiset(r.ips)[x] == 0 && multiset(e.ips)[x] == 1;
    assert [e, e][1 := r] == [e, r];
    ReplacedIsCovered([e, e], 1, r, 0);
    ReplacedDiffers([e, e], 1, r);
  }

  /** An address listed in two subsets: the list that has another address in its
      second place covers it. */
  lemma RepeatedAddressSkips(x: string, y: string)
    requires x != y
    ensures var expected := [KanaryEndpointList("app", 50, [x, x])];
            var recorded := [KanaryEndpointList("app", 50, [x, y])];
            SameSizes(expected, recorded) && StatusCovers(expected, recorded) && !SameUpToOrder(expected, recorded)
  {
    var e, r := KanaryEndpointList("app", 50, [x, x]), KanaryEndpointList("app", 50, [x, y]);
    assert r.ips[0] == x && multiset(r.ips)[x] == 1 && multiset(e.ips)[x] == 2;
    assert [e][0 := r] == [r];
    ReplacedIsCovered([e], 0, r, 0);
    ReplacedDiffers([e], 0, r);
  }

  // ---------- which expectations can be trusted ----------

  /** Whatever was recorded, a skip without a shrink leaves the expected status. */
  ghost predicate SkipsSafely(expected: seq<KanaryEndpointList>) {
    forall recorded :: StatusCovers(expected, recorded) && !SomeEntryShrank(expected, recorded)
                       ==> SameUpToOrder(expected, recorded)
  }

  ghost function FreshString(xs: seq<string>): (s: string)
    ensures s != "" && forall x :: x in xs ==> |x| < |s|
  {
    if xs == [] then "x" else FreshString(xs[1..]) + xs[0]
  }

  /** Over all inputs, exactly the expectations without a repeated entry and without
      a repeated address skip safely. */
  lemma SafeExpectations(expected: seq<KanaryEndpointList>)
    ensures SkipsSafely(expected) <==> DistinctEntries(expected) && DistinctAddresses(expected)
  {
    if DistinctEntries(expected) && DistinctAddresses(expected) {
      forall recorded | StatusCovers(expected, recorded) && !SomeEntryShrank(expected, recorded)
        ensures SameUpToOrder(expected, recorded)
      {
        CoveredIsSame(expected, recorded);
      }
    } else if !DistinctEntries(expected) {
      var i, j :| 0 <= i < j < |expected| && NormalsOf(expected)[i] == NormalsOf(expected)[j];
      RepeatedEntryIsUnsafe(expected, i, j);
    } else {
      var k :| 0 <= k < |expected| && !NoDup(expected[k].ips);
      RepeatedAddressIsUnsafe(expected, k);
    }
  }

  /** The recorded list may have another service in place of the repeated entry. */
  lemma RepeatedEntryIsUnsafe(expected: seq<KanaryEndpointList>, i: nat, j: nat)
    requires i < j < |expected| && NormalOf(expected[i]) == NormalOf(expected[j])
    ensures !SkipsSafely(expected)
  {
    var r := expected[j].(serviceName := FreshString([expected[j].serviceName]));
    assert expected[j].serviceName in [expected[j].serviceName];
    forall ip | ip in expected[j].ips ensures ip in expected[i].ips {
      assert ip in multiset(expected[i].ips);
    }
    assert |expected[i].ips| == |multiset(expected[i].ips)| == |multiset(expected[j].ips)|;
    ReplacedIsCovered(expected, j, r, i);
    ReplacedDiffers(expected, j, r);
  }

  /** The recorded entry may have another address in the place of the repetition. */
  lemma RepeatedAddressIsUnsafe(expected: seq<KanaryEndpointList>, k: nat)
    requires k < |expected| && !NoDup(expected[k].ips)
    ensures !SkipsSafely(expected)
  {
    var ips := expected[k].ips;
    var a, b :| 0 <= a < b < |ips| && ips[a] == ips[b];
    var other := FreshString(ips);
    var r := expected[k].(ips := ips[b := other]);
    forall ip | ip in ips ensures ip in r.ips {
      var c :| 0 <= c < |ips| && ips[c] == ip;
      assert r.ips[if c == b then a else c] == ip;
    }
    assert r.ips[b] in multiset(r.ips) && other !in multiset(ips);
    ReplacedIsCovered(expected, k, r, k);
    ReplacedDiffers(expected, k, r);
  }
}
