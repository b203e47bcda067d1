/**
 The warm pass over a snapshot: the walk and the listings it meets, put together.
 */
module WarmTree {
  import opened Wrappers
  import opened Sets
  import opened Paths
  import opened RollupSpec
  import opened ListingSpec
  import opened Listings
  import opened Warmer

  // What warming each directory meets: the epoch it reads, and a listing unless it fails.
  datatype Visits = Visits(epoch: string -> Epoch, listing: string -> Option<Listing>)

  // Every listing met is what a direct capped query of its snapshot says.
  ghost predicate Truthful(met: Visits, catalog: Catalog, cap: nat) {
    forall d :: met.listing(d).Some? ==>
      Names(catalog, cap, Key(met.epoch(d), NormalizePrefix(d), AnyType, ""), met.listing(d).value)
  }

  predicate Complete(met: Visits, d: string) {
    met.listing(d).Some? && !met.listing(d).value.truncated
  }

  // The names that warming returns; none when it fails.
  function Returned(met: Visits): Children {
    d => if met.listing(d).None? then [] else DirNames(met.listing(d).value.table)
  }

  // The child directories that the snapshot has.
  function Real(met: Visits, catalog: Catalog): Children {
    d => DirNames(Rows(catalog, met.epoch(d), NormalizePrefix(d)))
  }

  lemma ReturnedAreReal(met: Visits, catalog: Catalog, cap: nat, d: string)
    requires Truthful(met, catalog, cap)
    ensures ChildPaths(d, Returned(met)(d)) <= ChildPaths(d, Real(met, catalog)(d))
    ensures Complete(met, d) ==> ChildPaths(d, Returned(met)(d)) == ChildPaths(d, Real(met, catalog)(d))
  {
    hide Names, DirNames, ChildPath;
    var path := NormalizePrefix(d);
    if met.listing(d).Some? {
      forall name
        ensures name in Returned(met)(d) ==> name in Real(met, catalog)(d)
        ensures Complete(met, d) ==> (name in Returned(met)(d) <==> name in Real(met, catalog)(d))
      {
        ChildrenSeen(catalog, cap, met.epoch(d), path, met.listing(d).value, name);
        DirNamesMembers(Rows(catalog, met.epoch(d), path), name);
      }
    }
  }

  lemma FewerChildren(a: set<string>, b: set<string>, f: Children, g: Children)
    requires a <= b && forall d <- a :: ChildPaths(d, f(d)) <= ChildPaths(d, g(d))
    ensures ChildrenOf(a, f) <= ChildrenOf(b, g)
  {
    forall c | c in ChildrenOf(a, f)
      ensures c in ChildrenOf(b, g)
    {
      var d :| d in a && c in ChildPaths(d, f(d));
      assert d in b && c in ChildPaths(d, g(d));
    }
  }

  // Truncated or failed listings may hide directories, and never invent one ...
  lemma {:induction false} NothingInvented(met: Visits, catalog: Catalog, cap: nat, roots: set<string>, levels: nat)
    requires Truthful(met, catalog, cap)
    ensures Within(roots, Returned(met), levels) <= Within(roots, Real(met, catalog), levels)
  {
    hide ChildPaths, ChildrenOf, Returned, Real, Truthful;
    if levels > 0 {
      NothingInvented(met, catalog, cap, roots, levels - 1);
      var seen, there := Within(roots, Returned(met), levels - 1), Within(roots, Real(met, catalog), levels - 1);
      forall d <- seen
        ensures ChildPaths(d, Returned(met)(d)) <= ChildPaths(d, Real(met, catalog)(d))
      {
        ReturnedAreReal(met, catalog, cap, d);
      }
      FewerChildren(seen, there, Returned(met), Real(met, catalog));
    }
  }

  // ... and complete ones hide nothing.
  lemma {:induction false} NothingHidden(met: Visits, catalog: Catalog, cap: nat, roots: set<string>, levels: nat)
    requires Truthful(met, catalog, cap)
    requires forall d <- Within(roots, Returned(met), levels) :: Complete(met, d)
    ensures Within(roots, Real(met, catalog), levels) == Within(roots, Returned(met), levels)
  {
    hide ChildPaths, ChildrenOf, Returned, Real, Truthful, Complete;
    if levels > 0 {
      WithinGrows(roots, Returned(met), levels - 1);
      NothingHidden(met, catalog, cap, roots, levels - 1);
      var seen := Within(roots, Returned(met), levels - 1);
      forall d <- seen
        ensures ChildPaths(d, Returned(met)(d)) == ChildPaths(d, Real(met, catalog)(d))
      {
        ReturnedAreReal(met, catalog, cap, d);
      }
      FewerChildren(seen, seen, Returned(met), Real(met, catalog));
      FewerChildren(seen, seen, Real(met, catalog), Returned(met));
    }
  }

  // When every listing the pass meets is complete, it visits exactly the directories of the
  // snapshot within the levels walked, or as many of them as the cap allows.
  lemma PassVisitsTheTree(met: Visits, catalog: Catalog, cap: nat, roots: set<string>, walked: nat, levels: nat,
                          max: nat, order: seq<string>)
    requires Truthful(met, catalog, cap) && walked <= levels
    requires Walked(roots, Returned(met), walked, max, order)
    requires var all := |Within(roots, Returned(met), levels)|; |order| == if all <= max then all else max
    ensures SetOf(order) <= Within(roots, Real(met, catalog), levels)
    ensures (forall d <- order :: Complete(met, d)) ==>
      var all := Within(roots, Real(met, catalog), levels);
      if |all| <= max then SetOf(order) == all && |order| == |all| else |order| == max
  {
    hide Within, Returned, Real;
    var seen, there := Within(roots, Returned(met), levels), Within(roots, Real(met, catalog), levels);
    NothingInvented(met, catalog, cap, roots, levels);
    WithinMonotone(roots, Returned(met), walked, levels);
    SubsetCard(seen, there);
    UniqueCount(order);
    if |seen| <= max {
      SameSize(SetOf(order), seen);
      if (forall d <- order :: Complete(met, d)) {
        NothingHidden(met, catalog, cap, roots, levels);
      }
    }
  }
}
