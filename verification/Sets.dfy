/** Finite sets and the sequences that list them. */
module Sets {
  function SetOf<T(==)>(s: seq<T>): set<T> { set x <- s }

  ghost predicate Unique<T>(s: seq<T>) {
    forall i, j :: 0 <= i < j < |s| ==> s[i] != s[j]
  }

  lemma {:induction false} UniqueCount<T>(s: seq<T>)
    requires Unique(s)
    ensures |SetOf(s)| == |s|
  {
    if s != [] {
      var rest, last := s[..|s| - 1], s[|s| - 1];
      UniqueCount(rest);
      assert s == rest + [last];
      assert SetOf(s) == SetOf(rest) + {last};
    }
  }

  // Where the last element of one listing sits in another of the same elements.
  lemma TakeLast<T>(a: seq<T>, b: seq<T>) returns (i: nat)
    requires multiset(a) == multiset(b) && a != []
    ensures i < |b| && b[i] == a[|a| - 1] && b == b[..i] + [b[i]] + b[i + 1..]
    ensures multiset(a[..|a| - 1]) == multiset(b[..i] + b[i + 1..])
  {
    var rest, x := a[..|a| - 1], a[|a| - 1];
    WithoutOne(rest, x, []);
    assert a == rest + [x] + [] && rest + [] == rest;
    assert x in multiset(b);
    i :| 0 <= i < |b| && b[i] == x;
    assert b == b[..i] + [x] + b[i + 1..];
    WithoutOne(b[..i], x, b[i + 1..]);
  }

  lemma WithoutOne<T>(a: seq<T>, x: T, b: seq<T>)
    ensures multiset(a + b) == multiset(a + [x] + b) - multiset{x}
  {
    assert multiset(a + [x] + b) == multiset(a) + multiset{x} + multiset(b);
  }

  lemma SameEmpty<T>(a: seq<T>, b: seq<T>)
    requires multiset(a) == multiset(b) && a == []
    ensures b == []
  {
    assert |multiset(b)| == 0;
  }

  lemma UniqueSnoc<T>(s: seq<T>, x: T)
    requires Unique(s) && x !in s
    ensures Unique(s + [x])
  {
  }

  lemma UniqueParts<T>(a: seq<T>, b: seq<T>)
    requires Unique(a + b)
    ensures Unique(a) && SetOf(a + b) == SetOf(a) + SetOf(b)
    ensures forall x <- b :: x !in a
  {
    var all := a + b;
    forall i, j | 0 <= i < j < |a|
      ensures a[i] != a[j]
    {
      assert all[i] == a[i] && all[j] == a[j];
    }
    forall i, j | 0 <= i < |a| && 0 <= j < |b|
      ensures a[i] != b[j]
    {
      assert all[i] == a[i] && all[|a| + j] == b[j];
    }
  }

  lemma SubsetCard<T>(a: set<T>, b: set<T>)
    requires a <= b
    ensures |a| <= |b|
  {
    assert b == a + (b - a);
  }

  lemma SameSize<T>(a: set<T>, b: set<T>)
    requires a <= b && |a| == |b|
    ensures a == b
  {
    assert b == a + (b - a);
    assert |b| == |a| + |b - a|;
  }
}
