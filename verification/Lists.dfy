/** Facts about sequences and multisets that several modules need. */
module Lists {

  ghost predicate NoDup<T>(s: seq<T>) {
    forall i, j :: 0 <= i < j < |s| ==> s[i] != s[j]
  }

  function Without<T>(s: seq<T>, i: nat): (r: seq<T>)
    requires i < |s|
    ensures |r| == |s| - 1
  {
    s[..i] + s[i + 1..]
  }

  lemma WithoutMultiset<T>(s: seq<T>, i: nat)
    requires i < |s|
    ensures multiset(s) == multiset(Without(s, i)) + multiset{s[i]}
  {
    assert s == s[..i] + [s[i]] + s[i + 1..];
  }

  lemma WithoutMember<T>(s: seq<T>, i: nat, e: T)
    requires i < |s|
    ensures e in Without(s, i) ==> e in s
    ensures e in s && e != s[i] ==> e in Without(s, i)
  {
    WithoutMultiset(s, i);
    assert e in s <==> e in multiset(s);
    assert e in Without(s, i) <==> e in multiset(Without(s, i));
  }

  /** Removing an element of a duplicate-free list removes exactly that element. */
  lemma WithoutNoDup<T>(s: seq<T>, i: nat)
    requires i < |s| && NoDup(s)
    ensures NoDup(Without(s, i))
    ensures forall e :: e in Without(s, i) <==> e in s && e != s[i]
  {
    forall e ensures e in Without(s, i) <==> e in s && e != s[i] {
      WithoutMember(s, i, e);
    }
  }

  lemma CancelOne<T>(a: multiset<T>, b: multiset<T>, e: T)
    requires a + multiset{e} == b + multiset{e}
    ensures a == b
  {
    assert a == (a + multiset{e}) - multiset{e};
    assert b == (b + multiset{e}) - multiset{e};
  }

  /** Equal multisets stay equal when an occurrence of the same element is removed. */
  lemma WithoutSame<T>(x: seq<T>, y: seq<T>, j: nat)
    requires x != [] && j < |y| && y[j] == x[0] && multiset(x) == multiset(y)
    ensures multiset(x[1..]) == multiset(Without(y, j))
  {
    WithoutMultiset(y, j);
    WithoutMultiset(x, 0);
    CancelOne(multiset(Without(x, 0)), multiset(Without(y, j)), x[0]);
    assert Without(x, 0) == x[1..];
  }

  /** The counterpart of x[0] in a reordering y of x, and what is left without both. */
  lemma FindFirst<T>(x: seq<T>, y: seq<T>) returns (j: nat)
    requires x != [] && multiset(x) == multiset(y)
    ensures j < |y| && y[j] == x[0] && multiset(x[1..]) == multiset(Without(y, j))
  {
    assert x[0] in multiset(y);
    j :| 0 <= j < |y| && y[j] == x[0];
    WithoutSame(x, y, j);
  }

  /** Pigeonhole: a duplicate-free list contained in a list that is no longer
      has the same elements, with the same multiplicities. */
  lemma {:induction false} Pigeonhole<T>(x: seq<T>, y: seq<T>)
    requires NoDup(x)
    requires forall e :: e in x ==> e in y
    requires |x| >= |y|
    ensures multiset(x) == multiset(y)
  {
    if x == [] {
      assert x == y;
    } else {
      assert x[0] in y;
      var j :| 0 <= j < |y| && y[j] == x[0];
      RestContained(x, y, j);
      Pigeonhole(x[1..], Without(y, j));
      WithoutMultiset(y, j);
      assert x == [x[0]] + x[1..];
    }
  }

  lemma RestContained<T>(x: seq<T>, y: seq<T>, j: nat)
    requires NoDup(x) && x != [] && j < |y| && y[j] == x[0]
    requires forall e :: e in x ==> e in y
    ensures NoDup(x[1..]) && forall e :: e in x[1..] ==> e in Without(y, j)
  {
    forall e | e in x[1..] ensures e in Without(y, j) {
      var i :| 0 <= i < |x[1..]| && x[1..][i] == e;
      assert e == x[i + 1] && e in x;
      WithoutMember(y, j, e);
    }
  }
}
