/**
 The breadth-first warm pass: level by level from the roots, each directory once, under a
 depth limit and a cap on directories.
 */
module Warmer {
  import opened Wrappers
  import opened Sets
  import opened Paths

  // The child names that warming each directory returns; none when warming fails.
  type Children = string -> seq<string>

  function ChildPaths(path: string, names: seq<string>): set<string> {
    set n <- names :: ChildPath(path, n)
  }

  function ChildrenOf(dirs: set<string>, children: Children): set<string> {
    set d <- dirs, c <- ChildPaths(d, children(d)) :: c
  }

  // The directories within a number of levels: the roots are one level.
  ghost function Within(roots: set<string>, children: Children, levels: nat): set<string> {
    if levels == 0 then {} else roots + ChildrenOf(Within(roots, children, levels - 1), children)
  }

  lemma {:induction false} WithinGrows(roots: set<string>, children: Children, levels: nat)
    ensures Within(roots, children, levels) <= Within(roots, children, levels + 1)
  {
    if levels > 0 {
      WithinGrows(roots, children, levels - 1);
    }
  }

  lemma {:induction false} WithinMonotone(roots: set<string>, children: Children, a: nat, b: nat)
    requires a <= b
    ensures Within(roots, children, a) <= Within(roots, children, b)
    decreases b
  {
    hide Within;
    if a < b {
      WithinMonotone(roots, children, a, b - 1);
      WithinGrows(roots, children, b - 1);
    }
  }

  function Min(a: nat, b: nat): nat { if a <= b then a else b }

  // list(dict.fromkeys(paths))
  method Deduplicated(paths: seq<string>) returns (out: seq<string>)
    ensures Unique(out) && SetOf(out) == SetOf(paths)
  {
    out := [];
    for n := 0 to |paths|
      invariant Unique(out) && SetOf(out) == SetOf(paths[..n])
    {
      assert paths[..n + 1] == paths[..n] + [paths[n]];
      assert SetOf(paths[..n + 1]) == SetOf(paths[..n]) + {paths[n]};
      if paths[n] !in out {
        out := out + [paths[n]];
      }
    }
    assert paths[..|paths|] == paths;
  }

  // The next frontier: children of the batch that were not seen before.
  method Expand(batch: seq<string>, children: Children, seen: set<string>)
    returns (frontier: seq<string>, all: set<string>)
    ensures Unique(frontier) && SetOf(frontier) == ChildrenOf(SetOf(batch), children) - seen
    ensures all == seen + ChildrenOf(SetOf(batch), children)
  {
    hide ChildrenOf, ChildPaths;
    frontier, all := [], seen;
    NoChildren(children, batch);
    for n := 0 to |batch|
      invariant Unique(frontier) && SetOf(frontier) == ChildrenOf(SetOf(batch[..n]), children) - seen
      invariant all == seen + ChildrenOf(SetOf(batch[..n]), children)
    {
      NextChildren(batch, n, children);
      frontier, all := ExpandOne(batch[n], children(batch[n]), frontier, all);
    }
    assert batch[..|batch|] == batch;
  }

  lemma NoChildren(children: Children, batch: seq<string>)
    ensures ChildrenOf(SetOf(batch[..0]), children) == {}
  {
  }

  lemma NextChildren(batch: seq<string>, n: nat, children: Children)
    requires n < |batch|
    ensures ChildrenOf(SetOf(batch[..n + 1]), children)
            == ChildrenOf(SetOf(batch[..n]), children) + ChildPaths(batch[n], children(batch[n]))
  {
    assert batch[..n + 1] == batch[..n] + [batch[n]];
    var before, after := SetOf(batch[..n]), SetOf(batch[..n + 1]);
    assert after == before + {batch[n]};
    forall c
      ensures c in ChildrenOf(after, children)
              <==> c in ChildrenOf(before, children) || c in ChildPaths(batch[n], children(batch[n]))
    {
      if c in ChildrenOf(before, children) {
        var d :| d in before && c in ChildPaths(d, children(d));
        assert d in after;
      }
      if c in ChildPaths(batch[n], children(batch[n])) {
        assert batch[n] in after;
      }
    }
  }

  method ExpandOne(path: string, names: seq<string>, found: seq<string>, seen: set<string>)
    returns (frontier: seq<string>, all: set<string>)
    requires Unique(found) && SetOf(found) <= seen
    ensures Unique(frontier) && SetOf(frontier) == SetOf(found) + (ChildPaths(path, names) - seen)
    ensures all == seen + ChildPaths(path, names)
  {
    frontier, all := found, seen;
    for n := 0 to |names|
      invariant Unique(frontier) && SetOf(frontier) == SetOf(found) + (ChildPaths(path, names[..n]) - seen)
      invariant all == seen + ChildPaths(path, names[..n])
    {
      var child := ChildPath(path, names[n]);
      NextName(path, names, n);
      if child !in all {
        assert child !in SetOf(frontier);
        frontier, all := frontier + [child], all + {child};
      }
    }
    assert names[..|names|] == names;
  }

  lemma NextName(path: string, names: seq<string>, n: nat)
    requires n < |names|
    ensures ChildPaths(path, names[..n + 1]) == ChildPaths(path, names[..n]) + {ChildPath(path, names[n])}
  {
    assert names[..n + 1] == names[..n] + [names[n]];
  }

  // ---- levels are depths ----------------------------------------------------------------

  // The names of a path taken one after the other from what warming each directory returns.
  ghost predicate Descends(children: Children, root: seq<string>, names: seq<string>) {
    names == [] ||
    var above, last := names[..|names| - 1], names[|names| - 1];
    Descends(children, root, above) && last in children(DirPath(root + above))
  }

  ghost function RootPaths(roots: set<seq<string>>): set<string> { set r <- roots :: DirPath(r) }

  ghost predicate Below(roots: set<seq<string>>, children: Children, levels: nat, dir: string,
                        root: seq<string>, names: seq<string>)
  {
    root in roots && |names| < levels && Descends(children, root, names) && dir == DirPath(root + names)
  }

  // Within so many levels are exactly the directories reached from a root by fewer names.
  lemma LevelsAreDepths(roots: set<seq<string>>, children: Children, levels: nat, dir: string)
    ensures dir in Within(RootPaths(roots), children, levels)
            <==> exists root, names :: Below(roots, children, levels, dir, root, names)
  {
    if dir in Within(RootPaths(roots), children, levels) {
      var root, names := DescentTo(roots, children, levels, dir);
    }
    forall root, names | Below(roots, children, levels, dir, root, names)
      ensures dir in Within(RootPaths(roots), children, levels)
    {
      DescentStays(roots, children, levels, root, names);
    }
  }

  lemma {:induction false} DescentTo(roots: set<seq<string>>, children: Children, levels: nat, dir: string)
    returns (root: seq<string>, names: seq<string>)
    requires dir in Within(RootPaths(roots), children, levels)
    ensures Below(roots, children, levels, dir, root, names)
  {
    hide DirPath, ChildPath;
    if dir in RootPaths(roots) {
      root, names :| root in roots && DirPath(root) == dir && names == [];
      assert root + [] == root;
    } else {
      var above, name := ParentOf(roots, children, levels, dir);
      root, names := DescentTo(roots, children, levels - 1, above);
      DescendOne(roots, children, levels, above, root, names, name);
      names := names + [name];
    }
  }

  lemma ParentOf(roots: set<seq<string>>, children: Children, levels: nat, dir: string)
    returns (above: string, name: string)
    requires levels > 0 && dir in Within(RootPaths(roots), children, levels) && dir !in RootPaths(roots)
    ensures above in Within(RootPaths(roots), children, levels - 1)
    ensures name in children(above) && ChildPath(above, name) == dir
  {
    hide ChildPath;
    above :| above in Within(RootPaths(roots), children, levels - 1) && dir in ChildPaths(above, children(above));
    name :| name in children(above) && ChildPath(above, name) == dir;
  }

  lemma DescendOne(roots: set<seq<string>>, children: Children, levels: nat, above: string,
                   root: seq<string>, names: seq<string>, name: string)
    requires levels > 0 && Below(roots, children, levels - 1, above, root, names) && name in children(above)
    ensures Below(roots, children, levels, ChildPath(above, name), root, names + [name])
  {
    hide DirPath, ChildPath;
    ChildIsDeeper(root + names, name);
    assert root + names + [name] == root + (names + [name]);
    assert (names + [name])[..|names|] == names;
  }

  lemma {:induction false} DescentStays(roots: set<seq<string>>, children: Children, levels: nat,
                                        root: seq<string>, names: seq<string>)
    requires root in roots && |names| < levels && Descends(children, root, names)
    ensures DirPath(root + names) in Within(RootPaths(roots), children, levels)
    decreases levels
  {
    if names == [] {
      assert root + [] == root;
    } else {
      var above, last := names[..|names| - 1], names[|names| - 1];
      DescentStays(roots, children, levels - 1, root, above);
      ChildIsDeeper(root + above, last);
      assert root + above + [last] == root + names;
      assert DirPath(root + names) in ChildPaths(DirPath(root + above), children(DirPath(root + above)));
    }
  }

  // ---- the pass ------------------------------------------------------------------------

  // What was visited after some levels: every directory of the lower levels, and of the
  // last level all or, when the cap was reached, as many as it allowed.
  ghost predicate Walked(roots: set<string>, children: Children, levels: nat, max: nat, order: seq<string>) {
    && Unique(order)
    && SetOf(order) <= Within(roots, children, levels)
    && (levels > 0 ==> Within(roots, children, levels - 1) <= SetOf(order))
    && (SetOf(order) == Within(roots, children, levels) || |order| == max)
  }

  // Whatever is visited before a directory is at no deeper level.
  ghost predicate ByLevel(roots: set<string>, children: Children, order: seq<string>) {
    forall i, j, levels: nat ::
      0 <= i < j < |order| && order[j] in Within(roots, children, levels) ==>
        order[i] in Within(roots, children, levels)
  }

  lemma ByLevelAppend(roots: set<string>, children: Children, level: nat, order: seq<string>, batch: seq<string>)
    requires ByLevel(roots, children, order) && SetOf(order) <= Within(roots, children, level)
    requires SetOf(batch) <= Within(roots, children, level + 1) - Within(roots, children, level)
    ensures ByLevel(roots, children, order + batch)
  {
    hide Within;
    var all := order + batch;
    forall i, j, levels: nat | 0 <= i < j < |all| && all[j] in Within(roots, children, levels)
      ensures all[i] in Within(roots, children, levels)
    {
      if j < |order| {
        assert all[i] == order[i] && all[j] == order[j];
      } else {
        assert batch[j - |order|] in SetOf(batch);
        if levels <= level {
          WithinMonotone(roots, children, levels, level);
        } else {
          WithinMonotone(roots, children, level, levels);
          WithinMonotone(roots, children, level + 1, levels);
          if i < |order| {
            assert order[i] in SetOf(order);
          } else {
            assert batch[i - |order|] in SetOf(batch);
          }
        }
      }
    }
  }

  // The state between two levels: every directory of the levels so far was visited and the
  // frontier is the next level, or the cap is used up.
  ghost predicate Between(roots: set<string>, children: Children, level: nat, max: nat, order: seq<string>,
                          frontier: seq<string>, seen: set<string>)
  {
    && Walked(roots, children, level, max, order) && |order| <= max && ByLevel(roots, children, order)
    && (|order| < max ==> AtLevel(roots, children, level, order, frontier, seen))
  }

  ghost predicate AtLevel(roots: set<string>, children: Children, level: nat, order: seq<string>,
                          frontier: seq<string>, seen: set<string>)
  {
    && SetOf(order) == Within(roots, children, level)
    && Unique(frontier) && SetOf(frontier) == Within(roots, children, level + 1) - SetOf(order)
    && seen == Within(roots, children, level + 1)
  }

  lemma StartBetween(roots: seq<string>, children: Children, max: nat)
    requires Unique(roots)
    ensures Between(SetOf(roots), children, 0, max, [], roots, SetOf(roots))
  {
    assert SetOf<string>([]) == {};
    assert ChildrenOf({}, children) == {};
    assert Within(SetOf(roots), children, 1) == SetOf(roots) + ChildrenOf(Within(SetOf(roots), children, 0), children);
  }

  lemma JoinUnique(a: seq<string>, b: seq<string>)
    requires Unique(a) && Unique(b) && SetOf(a) !! SetOf(b)
    ensures Unique(a + b) && SetOf(a + b) == SetOf(a) + SetOf(b)
  {
    forall i, j | 0 <= i < j < |a + b|
      ensures (a + b)[i] != (a + b)[j]
    {
      if i < |a| <= j {
        assert a[i] in SetOf(a) && b[j - |a|] in SetOf(b);
      }
    }
  }

  lemma PartUnique(s: seq<string>, n: nat)
    requires Unique(s) && n <= |s|
    ensures Unique(s[..n]) && SetOf(s[..n]) <= SetOf(s)
  {
    assert forall x <- s[..n] :: x in s;
  }

  lemma ChildrenUnion(a: set<string>, b: set<string>, children: Children)
    ensures ChildrenOf(a + b, children) == ChildrenOf(a, children) + ChildrenOf(b, children)
  {
    forall c
      ensures c in ChildrenOf(a + b, children) <==> c in ChildrenOf(a, children) + ChildrenOf(b, children)
    {
      if c in ChildrenOf(a + b, children) {
        var d :| d in a + b && c in ChildPaths(d, children(d));
      }
      if c in ChildrenOf(a, children) {
        var d :| d in a && c in ChildPaths(d, children(d));
        assert d in a + b;
      }
      if c in ChildrenOf(b, children) {
        var d :| d in b && c in ChildPaths(d, children(d));
        assert d in a + b;
      }
    }
  }

  // Visiting part of the frontier, all of it unless the cap forbids.
  lemma VisitLevel(roots: set<string>, children: Children, level: nat, max: nat, order: seq<string>,
                   frontier: seq<string>, seen: set<string>, n: nat, next: seq<string>, all: set<string>)
    requires AtLevel(roots, children, level, order, frontier, seen) && Unique(order) && ByLevel(roots, children, order)
    requires |order| <= max && n == Min(|frontier|, max - |order|)
    requires Unique(next) && SetOf(next) == ChildrenOf(SetOf(frontier[..n]), children) - seen
    requires all == seen + ChildrenOf(SetOf(frontier[..n]), children)
    ensures Between(roots, children, level + 1, max, order + frontier[..n], next, all)
  {
    hide Within, ChildrenOf;
    var batch := frontier[..n];
    PartUnique(frontier, n);
    JoinUnique(order, batch);
    ByLevelAppend(roots, children, level, order, batch);
    WithinGrows(roots, children, level);
    if n == |frontier| {
      assert batch == frontier;
      NextLevel(roots, children, level, SetOf(frontier));
      assert SetOf(order + batch) == Within(roots, children, level + 1);
    }
  }

  lemma NextLevel(roots: set<string>, children: Children, level: nat, frontier: set<string>)
    requires frontier == Within(roots, children, level + 1) - Within(roots, children, level)
    ensures Within(roots, children, level + 2)
            == Within(roots, children, level + 1) + ChildrenOf(frontier, children)
  {
    var done, now := Within(roots, children, level), Within(roots, children, level + 1);
    WithinGrows(roots, children, level);
    assert now == done + frontier;
    ChildrenUnion(done, frontier, children);
    assert now == roots + ChildrenOf(done, children);
    assert Within(roots, children, level + 2) == roots + ChildrenOf(now, children);
  }

  // Once a level adds nothing, no deeper level does.
  lemma {:induction false} Exhausted(roots: set<string>, children: Children, level: nat, levels: nat)
    requires level <= levels && Within(roots, children, level + 1) == Within(roots, children, level)
    ensures Within(roots, children, levels) == Within(roots, children, level)
    decreases levels
  {
    if level < levels {
      Exhausted(roots, children, level, levels - 1);
      if level < levels - 1 {
        assert Within(roots, children, levels) == Within(roots, children, level + 1);
      }
    }
  }

  // However the walk ends, it visited as many directories as the limits allow.
  lemma Ended(roots: set<string>, children: Children, level: nat, levels: nat, max: nat, order: seq<string>,
              frontier: seq<string>, seen: set<string>)
    requires level <= levels && Between(roots, children, level, max, order, frontier, seen)
    requires level == levels || frontier == [] || |order| == max
    ensures |order| == Min(max, |Within(roots, children, levels)|)
  {
    hide Within;
    WithinMonotone(roots, children, level, levels);
    if |order| < max && level < levels {
      WithinGrows(roots, children, level);
      var now, next := Within(roots, children, level), Within(roots, children, level + 1);
      assert next - now == SetOf(frontier) == {};
      assert next == now + (next - now);
      Exhausted(roots, children, level, levels);
    }
    UniqueCount(order);
    SubsetCard(SetOf(order), Within(roots, children, levels));
  }

  // A directory is visited only when all directories of lower levels are.
  lemma LowerLevelsFirst(roots: set<string>, children: Children, levels: nat, max: nat, order: seq<string>,
                         level: nat, dir: string)
    requires Walked(roots, children, levels, max, order) && dir in order
    requires dir !in Within(roots, children, level)
    ensures Within(roots, children, level) <= SetOf(order)
  {
    hide Within;
    assert dir in SetOf(order);
    if level < levels {
      WithinMonotone(roots, children, level, levels - 1);
    } else {
      WithinMonotone(roots, children, levels, level);
    }
  }

  // A pass that the cap does not cut short visits exactly what can be reached from a root by
  // fewer names than it may walk levels.
  lemma PassReaches(roots: set<seq<string>>, children: Children, walked: nat, levels: nat, max: nat,
                    order: seq<string>, dir: string)
    requires walked <= levels && Walked(RootPaths(roots), children, walked, max, order)
    requires |order| == |Within(RootPaths(roots), children, levels)|
    ensures dir in order <==> exists root, names :: Below(roots, children, levels, dir, root, names)
  {
    hide Within;
    WithinMonotone(RootPaths(roots), children, walked, levels);
    UniqueCount(order);
    SameSize(SetOf(order), Within(RootPaths(roots), children, levels));
    LevelsAreDepths(roots, children, levels, dir);
  }

  class CacheWarmer {
    const paths: seq<string>
    const depth: int
    const maxDirs: nat
    var lastPass: Option<nat>

    constructor (warmPaths: seq<string>, depth: int, maxDirs: nat)
      ensures paths == seq(|warmPaths|, i requires 0 <= i < |warmPaths| => NormalizePrefix(warmPaths[i]))
      ensures this.depth == depth && this.maxDirs == maxDirs && lastPass.None?
    {
      paths := seq(|warmPaths|, i requires 0 <= i < |warmPaths| => NormalizePrefix(warmPaths[i]));
      this.depth, this.maxDirs, lastPass := depth, maxDirs, None;
    }

    // One pass; `stopAt` is the level before which the stop event is first seen, if ever.
    method RunPass(children: Children, stopAt: Option<nat>)
      returns (visited: nat, ghost order: seq<string>, ghost reached: nat, ghost levels: nat)
      modifies this
      ensures levels == if depth < 0 then 0
                        else if stopAt.Some? && stopAt.value <= depth then stopAt.value else depth + 1
      ensures var all := |Within(SetOf(paths), children, levels)|;
              visited == |order| == if all <= maxDirs then all else maxDirs
      ensures reached <= levels && Walked(SetOf(paths), children, reached, maxDirs, order)
      ensures ByLevel(SetOf(paths), children, order)
      ensures lastPass == Some(visited)
    {
      hide Within, ChildrenOf, Walked, ByLevel, Between;
      var frontier := Deduplicated(paths);
      var seen := SetOf(frontier);
      visited, order, reached := 0, [], 0;
      ghost var roots := SetOf(paths);
      levels := if depth < 0 then 0
                else if stopAt.Some? && stopAt.value <= depth then stopAt.value else depth + 1;
      StartBetween(frontier, children, maxDirs);
      for level := 0 to if depth < 0 then 0 else depth + 1
        invariant level <= levels && reached == level && visited == |order|
        invariant Between(roots, children, level, maxDirs, order, frontier, seen)
      {
        if frontier == [] || (stopAt.Some? && stopAt.value <= level) {
          break;
        }
        BetweenMeans(roots, children, level, maxDirs, order, frontier, seen);
        var n := Min(|frontier|, maxDirs - visited);
        var batch := frontier[..n];
        if batch == [] {
          break;
        }
        ghost var known, waiting := seen, frontier;
        frontier, seen := Expand(batch, children, seen);
        VisitLevel(roots, children, level, maxDirs, order, waiting, known, n, frontier, seen);
        visited, order, reached := visited + |batch|, order + batch, level + 1;
      }
      Ended(roots, children, reached, levels, maxDirs, order, frontier, seen);
      BetweenWalked(roots, children, reached, maxDirs, order, frontier, seen);
      lastPass := Some(visited);
    }
  }

  lemma BetweenMeans(roots: set<string>, children: Children, level: nat, max: nat, order: seq<string>,
                     frontier: seq<string>, seen: set<string>)
    requires Between(roots, children, level, max, order, frontier, seen)
    ensures |order| <= max && Unique(order) && ByLevel(roots, children, order)
    ensures |order| < max ==> AtLevel(roots, children, level, order, frontier, seen)
  {
  }

  lemma BetweenWalked(roots: set<string>, children: Children, level: nat, max: nat, order: seq<string>,
                      frontier: seq<string>, seen: set<string>)
    requires Between(roots, children, level, max, order, frontier, seen)
    ensures Walked(roots, children, level, max, order) && ByLevel(roots, children, order)
  {
  }
}
