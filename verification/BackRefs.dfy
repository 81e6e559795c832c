/** The kanaryRef annotation: the list of Kanaries to wake when an Endpoints
    object changes (pkg/controller/controller.go). */
module BackRefs {
  import opened KanaryTypes
  import opened Lists
  import opened EndpointDiff

  // ---------- the list operations ----------

  /** None stands for an annotation that cannot be decoded. */
  function AddRef(a: Annotation, owner: string): Option<Annotation> {
    match a
    case Malformed => None
    case Absent => Some(Refs([owner]))
    case Refs(names) => Some(Refs(if owner in names then names else names + [owner]))
  }

  /** Panics is Go's slice bounds panic on names[:-1]. */
  datatype Deletion = Deleted(annotation: Annotation) | DecodeError | Panics

  function FirstIndex(names: seq<string>, owner: string): (i: nat)
    requires owner in names
    ensures i < |names| && names[i] == owner && owner !in names[..i]
  {
    if names[0] == owner then 0 else 1 + FirstIndex(names[1..], owner)
  }

  function DeleteRef(a: Annotation, owner: string): Deletion {
    match a
    case Malformed => DecodeError
    case Absent => DecodeError
    case Refs(names) =>
      if owner in names then Deleted(Refs(Without(names, FirstIndex(names, owner)))) else Panics
  }

  lemma FirstIndexUnique(names: seq<string>, owner: string, i: nat)
    requires i < |names| && names[i] == owner && owner !in names[..i]
    ensures FirstIndex(names, owner) == i
  {
  }

  /** Adding keeps the list duplicate-free, keeps everybody and inserts the owner. */
  lemma AddRefSpec(a: Annotation, owner: string)
    requires !a.Malformed? && NoDup(a.Names())
    ensures AddRef(a, owner).Some? && AddRef(a, owner).value.Refs?
    ensures NoDup(AddRef(a, owner).value.names)
    ensures forall k :: k in AddRef(a, owner).value.names <==> k in a.Names() || k == owner
  {
  }

  /** Deleting from a duplicate-free list removes the owner and nobody else. */
  lemma DeleteRefSpec(a: Annotation, owner: string)
    requires NoDup(a.Names()) && DeleteRef(a, owner).Deleted?
    ensures DeleteRef(a, owner).annotation.Refs? && NoDup(DeleteRef(a, owner).annotation.names)
    ensures forall k :: k in DeleteRef(a, owner).annotation.names <==> k in a.Names() && k != owner
  {
    WithoutNoDup(a.names, FirstIndex(a.names, owner));
  }

  /** The names other than k, in order. */
  function Others(names: seq<string>, k: string): seq<string> {
    if names == [] then []
    else (if names[0] == k then [] else [names[0]]) + Others(names[1..], k)
  }

  /** Dropping k drops no other name and no other occurrence. */
  lemma {:induction false} OthersCounts(names: seq<string>, k: string, j: string)
    ensures multiset(Others(names, k))[j] == if j == k then 0 else multiset(names)[j]
  {
    if names == [] {
    } else {
      OthersCounts(names[1..], k, j);
      assert names == [names[0]] + names[1..];
    }
  }

  lemma {:induction false} OthersOfAbsent(names: seq<string>, k: string)
    requires k !in names
    ensures Others(names, k) == names
  {
    if names == [] {
    } else {
      assert names[0] in names && forall e :: e in names[1..] ==> e in names;
      OthersOfAbsent(names[1..], k);
    }
  }

  lemma {:induction false} OthersOfWithout(names: seq<string>, i: nat)
    requires i < |names|
    ensures Others(Without(names, i), names[i]) == Others(names, names[i])
  {
    if i == 0 {
      assert Without(names, 0) == names[1..];
    } else {
      OthersOfWithout(names[1..], i - 1);
      assert Without(names, i)[0] == names[0] && Without(names, i)[1..] == Without(names[1..], i - 1);
    }
  }

  lemma {:induction false} OthersNoDup(names: seq<string>, k: string)
    requires NoDup(names)
    ensures NoDup(Others(names, k))
  {
    if names == [] {
    } else {
      OthersNoDup(names[1..], k);
      OthersCounts(names[1..], k, names[0]);
      assert names[0] !in names[1..];
    }
  }

  /** Deleting from a duplicate-free list leaves the other names, in order. */
  lemma DeleteRefIsOthers(names: seq<string>, k: string)
    requires NoDup(names) && k in names
    ensures DeleteRef(Refs(names), k) == Deleted(Refs(Others(names, k)))
  {
    var i := FirstIndex(names, k);
    WithoutNoDup(names, i);
    OthersOfWithout(names, i);
    OthersOfAbsent(Without(names, i), k);
  }

  /** From a to b the names other than k are the same, in the same order. */
  predicate Struck(k: string, a: Annotation, b: Annotation) {
    && (a.Refs? <==> b.Refs?) && (a.Malformed? <==> b.Malformed?)
    && Others(a.Names(), k) == Others(b.Names(), k)
  }

  lemma DeleteRefStrikes(a: Annotation, k: string)
    requires DeleteRef(a, k).Deleted?
    ensures Struck(k, a, DeleteRef(a, k).annotation)
  {
    OthersOfWithout(a.names, FirstIndex(a.names, k));
  }

  // ---------- the code ----------

  method AddKanaryRefInEp(ep: Endpoints, owner: string) returns (r: Option<Endpoints>)
    ensures r == match AddRef(ep.kanaryRef, owner)
                 case None => None
                 case Some(a) => Some(ep.(kanaryRef := a))
  {
    var kanaryRefRange: seq<string> := [];
    if !ep.kanaryRef.Absent? {
      if ep.kanaryRef.Malformed? {
        return None;
      }
      kanaryRefRange := ep.kanaryRef.names;
    }
    var contained := ContainsString(kanaryRefRange, owner);
    assert [] + [owner] == [owner];
    if !contained {
      kanaryRefRange := kanaryRefRange + [owner];
    }
    return Some(ep.(kanaryRef := Refs(kanaryRefRange)));
  }

  /** append(s[:i], s[i+1:]...): the tail of the slice is shifted one place to the
      left in the same storage, whose last cell keeps its old value. */
  method ShiftLeft(s: array<string>, i: nat)
    requires i < s.Length
    modifies s
    ensures s[..s.Length - 1] == Without(old(s[..]), i)
    ensures s[s.Length - 1] == old(s[s.Length - 1])
  {
    var j := i;
    while j < s.Length - 1
      invariant i <= j < s.Length
      invariant forall k :: 0 <= k < i ==> s[k] == old(s[k])
      invariant forall k :: i <= k < j ==> s[k] == old(s[k + 1])
      invariant forall k :: j <= k < s.Length ==> s[k] == old(s[k])
    {
      s[j] := s[j + 1];
      j := j + 1;
    }
  }

  /** The edit deleteKyRefInEp makes to one annotation. */
  method DeleteKanaryRef(a: Annotation, owner: string) returns (r: Deletion)
    ensures r == DeleteRef(a, owner)
  {
    if !a.Refs? {
      return DecodeError;
    }
    var indexElt := GetEltToDeleteIndex(a.names, owner);
    if indexElt == -1 {
      return Panics;
    }
    FirstIndexUnique(a.names, owner, indexElt);
    var kyRef := new string[|a.names|](i requires 0 <= i < |a.names| => a.names[i]);
    assert kyRef[..] == a.names;
    ShiftLeft(kyRef, indexElt);
    return Deleted(Refs(kyRef[..kyRef.Length - 1]));
  }
}
