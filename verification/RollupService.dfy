/**
 The rollup service: one epoch per rollup, the subtree scan, seeding of child
 directories under the group cap, and the cache of results.
 */
module RollupService {
  import opened Wrappers
  import opened Sets
  import opened Paths
  import opened Folding
  import opened FolderFacts
  import opened Rollup
  import opened Pipeline
  import opened RollupSpec
  import opened Cache
  import T = TimedCache

  datatype Key = Key(epoch: Epoch, prefix: string, depth: int)

  datatype Answer =
    | Computed(result: RollupResult)
    | BadDepth
    | RootRefused
    | TooManyGroups
    | QueryFailed

  // An API-sized copy of a result.
  datatype Public = Public(children: seq<Child>, total: nat, truncated: bool)

  // What a scan may deliver: the rows asked for in any order and any batching, or some of
  // them before it fails.
  ghost predicate Delivers(stream: Stream, rows: Batch) {
    if stream.fails then multiset(Flat(stream.batches)) <= multiset(rows)
    else multiset(Flat(stream.batches)) == multiset(rows)
  }

  // ---- pieces of a computation --------------------------------------------------------

  method SequentialGroups(stream: Stream, prefix: string, depth: nat, max: nat) returns (r: PipelineResult)
    ensures r.Grouped? ==>
      && r.groups.Valid() && fresh(r.groups) && fresh(r.groups.Repr)
      && r.groups.View() == GroupMap(Tags(stream.batches, prefix, depth))
      && r.total == |Flat(stream.batches)|
    ensures r.RollupTooWide? ==> !Fits(max, KeysOf(Tags(stream.batches, prefix, depth)))
    ensures r.Grouped? ==> !stream.fails && Fits(max, KeysOf(Tags(stream.batches, prefix, depth)))
    ensures r.StreamFailed? ==> stream.fails
  {
    hide KeysOf, Tag, FoldInto, Flat;
    var groups := new Groups();
    var rows := AggregateReader(stream.batches, prefix, depth, groups, max);
    match rows {
      case TooWide => r := RollupTooWide;
      case Rows(total) => r := if stream.fails then StreamFailed else Grouped(groups, total);
    }
  }

  // Seed child directories, so that empty folders show up.
  method Seed(groups: Groups, names: seq<string>, max: nat) returns (ok: bool)
    requires groups.Valid() && |groups.table.Keys| <= max
    modifies groups
    ensures groups.Valid()
    ensures ok <==> |old(groups.table.Keys) + SetOf(names)| <= max
    ensures ok ==> groups.table.Keys == old(groups.table.Keys) + SetOf(names)
    ensures ok ==> Agree(groups.View(), old(groups.View()))
  {
    hide *;
    ghost var start := groups.View();
    SeedStart(names, start, max);
    for n := 0 to |names|
      invariant groups.Valid()
      invariant fresh(groups.Repr - old(groups.Repr)) && old(groups.Repr) <= groups.Repr
      invariant SeededTo(start.Keys, names, n, groups.table.Keys, max)
      invariant Agree(groups.View(), start)
    {
      SeedNext(start.Keys, names, n, groups.table.Keys, max);
      if names[n] !in groups.table && |groups.table| >= max {
        return false;
      }
      ghost var was := groups.View();
      groups.SetDefault(names[n]);
      AgreeTrans(groups.View(), was, start);
    }
    SeedEnd(start.Keys, names, groups.table.Keys, max);
    ok := true;
  }

  ghost predicate SeededTo(start: set<string>, names: seq<string>, n: nat, keys: set<string>, max: nat)
    requires n <= |names|
  {
    keys == start + SetOf(names[..n]) && |keys| <= max
  }

  lemma SeedStart(names: seq<string>, view: map<string, Stats>, max: nat)
    requires |view.Keys| <= max
    ensures SeededTo(view.Keys, names, 0, view.Keys, max) && Agree(view, view)
  {
    assert view.Keys + SetOf(names[..0]) == view.Keys;
  }

  lemma SeedEnd(start: set<string>, names: seq<string>, keys: set<string>, max: nat)
    requires SeededTo(start, names, |names|, keys, max)
    ensures keys == start + SetOf(names) && |start + SetOf(names)| <= max
  {
    assert names[..|names|] == names;
  }

  lemma SeedNext(start: set<string>, names: seq<string>, n: nat, keys: set<string>, max: nat)
    requires n < |names| && SeededTo(start, names, n, keys, max)
    ensures if names[n] in keys || |keys| < max then SeededTo(start, names, n + 1, keys + {names[n]}, max)
            else |start + SetOf(names)| > max
  {
    NamesNext(names, n);
    if names[n] in keys {
      assert keys + {names[n]} == keys;
    } else if |keys| >= max {
      SubsetCard(keys + {names[n]}, start + SetOf(names));
    }
  }

  lemma AgreeTrans(a: map<string, Stats>, b: map<string, Stats>, c: map<string, Stats>)
    requires Agree(a, b) && Agree(b, c)
    ensures Agree(a, c)
  {
  }

  lemma NamesNext(names: seq<string>, n: nat)
    requires n < |names|
    ensures SetOf(names[..n + 1]) == SetOf(names[..n]) + {names[n]}
    ensures SetOf(names[..n + 1]) <= SetOf(names)
  {
    assert names[..n + 1] == names[..n] + [names[n]];
    assert forall x <- names[..n + 1] :: x in names;
  }

  // children.sort(key=total_bytes, reverse=True)
  method SortChildren(children: seq<Child>) returns (out: seq<Child>)
    requires OnceEach(children)
    ensures OnceEach(out) && Descending(out) && |out| == |children|
    ensures forall c :: c in out <==> c in children
  {
    out := [];
    for n := 0 to |children|
      invariant OnceEach(out) && Descending(out) && |out| == n
      invariant forall c :: c in out <==> c in children[..n]
    {
      var c := children[n];
      var i := 0;
      while i < |out| && out[i].stats.bytes >= c.stats.bytes
        invariant 0 <= i <= |out|
        invariant forall j :: 0 <= j < i ==> out[j].stats.bytes >= c.stats.bytes
      {
        i := i + 1;
      }
      NewName(children, n, out);
      Inserted(out, i, c);
      assert children[..n + 1] == children[..n] + [c];
      out := out[..i] + [c] + out[i..];
    }
    assert children[..|children|] == children;
  }

  lemma NewName(children: seq<Child>, n: nat, out: seq<Child>)
    requires OnceEach(children) && n < |children|
    requires forall c :: c in out <==> c in children[..n]
    ensures forall c <- out :: c.name != children[n].name
  {
    forall c <- out
      ensures c.name != children[n].name
    {
      var i :| 0 <= i < n && children[..n][i] == c;
      assert children[i] == c;
    }
  }

  lemma Inserted(out: seq<Child>, i: nat, c: Child)
    requires OnceEach(out) && Descending(out) && i <= |out|
    requires forall j :: 0 <= j < i ==> out[j].stats.bytes >= c.stats.bytes
    requires i < |out| ==> out[i].stats.bytes < c.stats.bytes
    requires forall x <- out :: x.name != c.name
    ensures var r := out[..i] + [c] + out[i..];
            && OnceEach(r) && Descending(r) && |r| == |out| + 1
            && forall x :: x in r <==> x in out || x == c
  {
    var r := out[..i] + [c] + out[i..];
    forall a, b | 0 <= a < b < |r|
      ensures r[a].name != r[b].name && r[a].stats.bytes >= r[b].stats.bytes
    {
      var x := if a < i then a else a - 1;
      var y := if b <= i then b else b - 1;
      assert a == i || (r[a] == out[x] && out[x] in out);
      assert b == i || (r[b] == out[y] && out[y] in out);
    }
    assert out == out[..i] + out[i..];
  }

  // Everything in the groups, added up.
  method FoldTotals(items: seq<Item>) returns (total: FolderStats)
    ensures fresh(total) && total.Value() == Sum(items)
  {
    total := new FolderStats();
    for n := 0 to |items|
      invariant fresh(total) && total.Value() == Sum(items[..n])
    {
      var s := items[n].stats;
      assert items[..n + 1][..n] == items[..n];
      total.Add(s.files, Some(s.bytes), Some(s.used), s.mtime, s.atime);
    }
    assert items[..|items|] == items;
  }

  // ---- why the pieces make a rollup -------------------------------------------------------

  lemma ScanMeans(stream: Stream, snap: Snapshot, prefix: string, depth: nat)
    requires Delivers(stream, FilesUnder(snap.files, prefix))
    ensures !stream.fails ==>
      && GroupMap(Tags(stream.batches, prefix, depth)) == GroupMap(FileItems(snap, prefix, depth))
      && |Flat(stream.batches)| == |FilesUnder(snap.files, prefix)|
    ensures KeysOf(Tags(stream.batches, prefix, depth)) <= KeysOf(FileItems(snap, prefix, depth))
    ensures !stream.fails ==>
      KeysOf(Tags(stream.batches, prefix, depth)) == KeysOf(FileItems(snap, prefix, depth))
  {
    var got, rows := Flat(stream.batches), FilesUnder(snap.files, prefix);
    if stream.fails {
      PartKeys(got, rows, prefix, depth);
    } else {
      assert |multiset(got)| == |multiset(rows)|;
      TagPermutes(got, rows, prefix, depth);
      PermutationSameGroups(Tag(got, prefix, depth), Tag(rows, prefix, depth));
    }
  }

  lemma PartKeys(got: Batch, rows: Batch, prefix: string, depth: nat)
    requires multiset(got) <= multiset(rows)
    ensures KeysOf(Tag(got, prefix, depth)) <= KeysOf(Tag(rows, prefix, depth))
  {
    hide KeysOf;
    forall k | k in KeysOf(Tag(got, prefix, depth))
      ensures k in KeysOf(Tag(rows, prefix, depth))
    {
      var i := KeyFrom(Tag(got, prefix, depth), k);
      assert got[i] in multiset(got);
      assert got[i] in multiset(rows);
      var j :| 0 <= j < |rows| && rows[j] == got[i];
      KeyAt(Tag(rows, prefix, depth), j);
    }
  }

  // The groups after seeding hold every group's files.
  ghost predicate Seeded(view: map<string, Stats>, snap: Snapshot, prefix: string, depth: nat) {
    view.Keys == GroupNames(snap, prefix, depth)
    && forall k :: At(view, k) == Total(FileItems(snap, prefix, depth), k)
  }

  lemma ItemsPartition(items: seq<Item>, view: map<string, Stats>, snap: Snapshot, prefix: string, depth: nat,
                       children: seq<Child>)
    requires Seeded(view, snap, prefix, depth) && view == GroupMap(items) && KeysOf(items) == view.Keys
    requires forall i, j :: 0 <= i < j < |items| ==> items[i].key != items[j].key
    requires Listed(children) == items
    ensures Partitions(children, snap, prefix, depth)
    ensures Sum(items) == Sum(FileItems(snap, prefix, depth))
  {
    hide KeysOf, Total, FoldInto, Sum, TotalIn;
    forall c <- children
      ensures c.stats == Total(FileItems(snap, prefix, depth), c.name)
    {
      var i :| 0 <= i < |children| && children[i] == c;
      assert items[i] == Item(c.name, c.stats);
      TotalDistinct(items, i);
      GroupAt(items, c.name);
    }
    assert Partitions(children, snap, prefix, depth);
    SameTotals(children, snap, prefix, depth);
    var keys := GroupNames(snap, prefix, depth);
    SameTotalIn(items, FileItems(snap, prefix, depth), keys);
    TotalInAll(items, keys);
    TotalInAll(FileItems(snap, prefix, depth), keys);
  }

  lemma SortedPartition(children: seq<Child>, sorted: seq<Child>, snap: Snapshot, prefix: string, depth: nat)
    requires Partitions(children, snap, prefix, depth) && OnceEach(sorted)
    requires forall c :: c in sorted <==> c in children
    ensures Partitions(sorted, snap, prefix, depth)
  {
    MembersKeys(children, sorted);
    MembersKeys(sorted, children);
  }

  lemma MembersKeys(a: seq<Child>, b: seq<Child>)
    requires forall c <- a :: c in b
    ensures KeysOf(Listed(a)) <= KeysOf(Listed(b))
  {
    hide KeysOf;
    forall k | k in KeysOf(Listed(a))
      ensures k in KeysOf(Listed(b))
    {
      var i := KeyFrom(Listed(a), k);
      assert a[i] in b;
      var j :| 0 <= j < |b| && b[j] == a[i];
      KeyAt(Listed(b), j);
    }
  }

  // ---- one computation -------------------------------------------------------------------------

  method Scan(stream: Stream, prefix: string, depth: nat, threads: nat, pipelined: bool, max: nat)
    returns (r: PipelineResult)
    requires threads > 0
    ensures r.Grouped? ==>
      && r.groups.Valid() && fresh(r.groups) && fresh(r.groups.Repr)
      && r.groups.View() == GroupMap(Tags(stream.batches, prefix, depth))
      && r.total == |Flat(stream.batches)|
    ensures r.RollupTooWide? ==> !Fits(max, KeysOf(Tags(stream.batches, prefix, depth)))
    ensures r.Grouped? ==> !stream.fails && Fits(max, KeysOf(Tags(stream.batches, prefix, depth)))
    ensures r.StreamFailed? ==> stream.fails
  {
    hide *;
    if pipelined {
      ghost var peak;
      r, peak := RollupGroups(stream, prefix, depth, threads, max);
    } else {
      r := SequentialGroups(stream, prefix, depth, max);
    }
  }

  // The outcome depends on the snapshot only: neither on the batching, nor on the order in
  // which batches complete, nor on which names the limited query happened to return.
  ghost predicate Decides(a: Answer, snap: Snapshot, epoch: Epoch, prefix: string, depth: nat, max: nat,
                          stream: Stream, names: Option<seq<string>>)
  {
    && (a.Computed? ==> IsRollup(a.result, snap, epoch, prefix, depth) && |GroupNames(snap, prefix, depth)| <= max)
    && (a.TooManyGroups? ==> |GroupNames(snap, prefix, depth)| > max)
    && (a.QueryFailed? ==> stream.fails || names.None?)
    && !a.BadDepth? && !a.RootRefused?
  }

  lemma DecidesBothWays(a: Answer, snap: Snapshot, epoch: Epoch, prefix: string, depth: nat, max: nat,
                        stream: Stream, names: Option<seq<string>>)
    requires Decides(a, snap, epoch, prefix, depth, max, stream, names) && !stream.fails && names.Some?
    ensures a.Computed? <==> |GroupNames(snap, prefix, depth)| <= max
  {
  }

  method Aggregate(prefix: string, depth: nat, epoch: Epoch, ghost snap: Snapshot, stream: Stream,
                   names: Option<seq<string>>, threads: nat, pipelined: bool, max: nat)
    returns (a: Answer)
    requires threads > 0 && max > 0
    requires Delivers(stream, FilesUnder(snap.files, prefix))
    requires names.Some? ==> Answers(names.value, ChildNames(snap.dirs, prefix), max + 1)
    ensures Decides(a, snap, epoch, prefix, depth, max, stream, names)
    ensures !stream.fails && names.Some? ==> (a.Computed? <==> |GroupNames(snap, prefix, depth)| <= max)
    ensures a.Computed? ==> Reports(a.result, snap, prefix, depth)
  {
    hide *;
    var scanned := Scan(stream, prefix, depth, threads, pipelined, max);
    ScanMeans(stream, snap, prefix, depth);
    WideDecides(stream, snap, epoch, prefix, depth, max, names);
    FailureDecides(stream, snap, epoch, prefix, depth, max, names);
    match scanned {
      case StreamFailed => a := QueryFailed;
      case RollupTooWide => a := TooManyGroups;
      case Grouped(groups, total) =>
        ghost var view := groups.View();
        FilesFit(view, snap, prefix, depth, max);
        if names.None? {
          a := QueryFailed;
        } else {
          SeedDecides(view, snap, prefix, depth, names.value, max);
          var ok := Seed(groups, names.value, max);
          if ok {
            SeedCompletes(groups.View(), view, snap, prefix, depth, names.value, max);
            var result := Present(prefix, depth, epoch, snap, groups, total);
            RollupDecides(stream, snap, epoch, prefix, depth, max, names, result);
            RollupReports(result, snap, epoch, prefix, depth);
            a := Computed(result);
          } else {
            ManyDecides(stream, snap, epoch, prefix, depth, max, names);
            a := TooManyGroups;
          }
        }
    }
    if !stream.fails && names.Some? {
      DecidesBothWays(a, snap, epoch, prefix, depth, max, stream, names);
    }
  }

  lemma FilesFit(view: map<string, Stats>, snap: Snapshot, prefix: string, depth: nat, max: nat)
    requires max > 0 && view == GroupMap(FileItems(snap, prefix, depth))
    requires Fits(max, KeysOf(FileItems(snap, prefix, depth)))
    ensures |view.Keys| <= max
  {
    FoldKeys(map[], FileItems(snap, prefix, depth));
  }

  lemma WideDecides(stream: Stream, snap: Snapshot, epoch: Epoch, prefix: string, depth: nat, max: nat,
                    names: Option<seq<string>>)
    requires KeysOf(Tags(stream.batches, prefix, depth)) <= KeysOf(FileItems(snap, prefix, depth))
    ensures !Fits(max, KeysOf(Tags(stream.batches, prefix, depth))) ==>
      Decides(TooManyGroups, snap, epoch, prefix, depth, max, stream, names)
  {
    SubsetCard(KeysOf(Tags(stream.batches, prefix, depth)), GroupNames(snap, prefix, depth));
  }

  lemma FailureDecides(stream: Stream, snap: Snapshot, epoch: Epoch, prefix: string, depth: nat, max: nat,
                       names: Option<seq<string>>)
    ensures stream.fails || names.None? ==> Decides(QueryFailed, snap, epoch, prefix, depth, max, stream, names)
  {
  }

  lemma ManyDecides(stream: Stream, snap: Snapshot, epoch: Epoch, prefix: string, depth: nat, max: nat,
                    names: Option<seq<string>>)
    requires |GroupNames(snap, prefix, depth)| > max
    ensures Decides(TooManyGroups, snap, epoch, prefix, depth, max, stream, names)
  {
  }

  lemma RollupDecides(stream: Stream, snap: Snapshot, epoch: Epoch, prefix: string, depth: nat, max: nat,
                      names: Option<seq<string>>, r: RollupResult)
    requires IsRollup(r, snap, epoch, prefix, depth) && |GroupNames(snap, prefix, depth)| <= max
    ensures Decides(Computed(r), snap, epoch, prefix, depth, max, stream, names)
  {
  }

  lemma SeedDecides(view: map<string, Stats>, snap: Snapshot, prefix: string, depth: nat, names: seq<string>, max: nat)
    requires view == GroupMap(FileItems(snap, prefix, depth))
    requires Answers(names, ChildNames(snap.dirs, prefix), max + 1)
    ensures |view.Keys + SetOf(names)| <= max <==> |GroupNames(snap, prefix, depth)| <= max
    ensures |GroupNames(snap, prefix, depth)| <= max ==>
      view.Keys + SetOf(names) == GroupNames(snap, prefix, depth)
  {
    FoldKeys(map[], FileItems(snap, prefix, depth));
    assert view.Keys == KeysOf(FileItems(snap, prefix, depth));
    Pigeonhole(names, ChildNames(snap.dirs, prefix), view.Keys, max);
  }

  lemma SeedCompletes(now: map<string, Stats>, view: map<string, Stats>, snap: Snapshot, prefix: string, depth: nat,
                      names: seq<string>, max: nat)
    requires view == GroupMap(FileItems(snap, prefix, depth)) && Agree(now, view)
    requires now.Keys == view.Keys + SetOf(names) == GroupNames(snap, prefix, depth)
    ensures Seeded(now, snap, prefix, depth)
  {
    forall k
      ensures At(now, k) == Total(FileItems(snap, prefix, depth), k)
    {
      GroupAt(FileItems(snap, prefix, depth), k);
    }
  }

  method Present(prefix: string, depth: nat, epoch: Epoch, ghost snap: Snapshot, groups: Groups, rows: nat)
    returns (r: RollupResult)
    requires groups.Valid() && Seeded(groups.View(), snap, prefix, depth)
    requires rows == |FilesUnder(snap.files, prefix)|
    ensures IsRollup(r, snap, epoch, prefix, depth)
  {
    hide KeysOf, Total, FoldInto, Sum, TotalIn, OnceEach, Descending, Seeded, Partitions;
    var items := ListItems(groups);
    var children := seq(|items|, i requires 0 <= i < |items| => Child(items[i].key, items[i].stats));
    assert Listed(children) == items;
    ItemsPartition(items, groups.View(), snap, prefix, depth, children);
    var totals := FoldTotals(items);
    assert totals.Value() == Sum(FileItems(snap, prefix, depth));
    var sorted := SortChildren(children);
    SortedPartition(children, sorted, snap, prefix, depth);
    r := RollupResult(prefix, epoch, rows, sorted, Totals(totals.files, totals.bytes, totals.used, totals.mtime));
  }

  // ---- the service --------------------------------------------------------------------------------

  class RollupService {
    const cache: TTLCache<Key, RollupResult>
    const maxGroups: nat
    const maxDepth: nat
    const threads: nat
    const allowRoot: bool
    const pipelined: bool
    const responseChildren: nat
    ghost const catalog: Epoch -> Snapshot

    ghost predicate Valid()
      reads cache
    {
      && threads > 0 && maxGroups > 0 && responseChildren > 0
      && cache.Valid() && Coherent(cache.log)
    }

    // Whatever was ever cached under a key is the rollup that key names.
    ghost predicate Coherent(log: seq<T.Op<Key, RollupResult>>) {
      forall op <- log :: op.Put? ==> Names(op.key, op.value)
    }

    ghost predicate Names(key: Key, r: RollupResult) {
      key.depth >= 1 && IsRollup(r, catalog(key.epoch), key.epoch, key.prefix, key.depth)
    }

    lemma CoherentSnoc(log: seq<T.Op<Key, RollupResult>>, op: T.Op<Key, RollupResult>)
      requires Coherent(log) && (op.Put? ==> Names(op.key, op.value))
      ensures Coherent(log + [op])
    {
    }

    constructor (cache: TTLCache<Key, RollupResult>, maxGroups: nat, maxDepth: nat, threads: nat, allowRoot: bool,
                 pipelined: bool, responseChildren: nat, ghost catalog: Epoch -> Snapshot)
      requires cache.Valid() && cache.log == [] && threads > 0 && maxGroups > 0 && responseChildren > 0
      ensures Valid() && this.cache == cache && this.catalog == catalog
    {
      this.cache, this.maxGroups, this.maxDepth, this.threads := cache, maxGroups, maxDepth, threads;
      this.allowRoot, this.pipelined, this.responseChildren := allowRoot, pipelined, responseChildren;
      this.catalog := catalog;
    }

    // A cached rollup, if there is one for the current epoch.
    method Cached(path: string, depth: int, epoch: Epoch, now: real) returns (r: Option<RollupResult>)
      requires Valid()
      modifies cache
      ensures Valid()
      ensures r == Seen(old(cache.d), Key(epoch, NormalizePrefix(path), depth), now)
      ensures r.Some? ==> depth >= 1 && IsRollup(r.value, catalog(epoch), epoch, NormalizePrefix(path), depth)
      ensures r.Some? ==> Reports(r.value, catalog(epoch), NormalizePrefix(path), depth)
    {
      hide T.Latest, IsRollup, Reports;
      var key := Key(epoch, NormalizePrefix(path), depth);
      ghost var before := cache.log;
      r := cache.Get(key, now);
      CoherentSnoc(before, T.Get(key, now));
      assert r.Some? ==> Names(key, r.value);
      if r.Some? {
        RollupReports(r.value, catalog(epoch), epoch, key.prefix, depth);
      }
    }

    // A fresh rollup of one epoch's snapshot, cached under that epoch.
    method Compute(path: string, depth: int, epoch: Epoch, stream: Stream, names: Option<seq<string>>,
                   nbytes: nat, now: real, stamp: real)
      returns (a: Answer)
      requires Valid()
      requires Delivers(stream, FilesUnder(catalog(epoch).files, NormalizePrefix(path)))
      requires names.Some? ==>
        Answers(names.value, ChildNames(catalog(epoch).dirs, NormalizePrefix(path)), maxGroups + 1)
      modifies cache
      ensures Valid()
      ensures a.BadDepth? <==> depth < 1 || depth > maxDepth
      ensures a.RootRefused? <==> 1 <= depth <= maxDepth && NormalizePrefix(path) == "/" && !allowRoot
      ensures !a.BadDepth? && !a.RootRefused? ==>
        Decides(a, catalog(epoch), epoch, NormalizePrefix(path), depth, maxGroups, stream, names)
      ensures 1 <= depth <= maxDepth && !a.RootRefused? && !stream.fails && names.Some? ==>
        (a.Computed? <==> |GroupNames(catalog(epoch), NormalizePrefix(path), depth)| <= maxGroups)
      ensures a.Computed? ==> Reports(a.result, catalog(epoch), NormalizePrefix(path), depth)
      ensures cache.log == old(cache.log) + if !a.Computed? then []
                else [T.Put(Key(epoch, NormalizePrefix(path), depth), a.result, nbytes, now, stamp)]
    {
      hide IsRollup, Reports;
      var prefix := NormalizePrefix(path);
      if depth < 1 || depth > maxDepth {
        return BadDepth;
      }
      if prefix == "/" && !allowRoot {
        return RootRefused;
      }
      a := Aggregate(prefix, depth, epoch, catalog(epoch), stream, names, threads, pipelined, maxGroups);
      if a.Computed? {
        var key := Key(epoch, prefix, depth);
        ghost var before := cache.log;
        var cached := cache.Put(key, a.result, nbytes, now, stamp);
        CoherentSnoc(before, T.Put(key, a.result, nbytes, now, stamp));
      }
    }

    // The largest children of a result, up to a limit.
    method PublicResult(r: RollupResult, childLimit: Option<nat>) returns (p: Public)
      requires Valid() && Descending(r.children)
      ensures p.total == |r.children| && p.children <= r.children
      ensures var asked := if childLimit.None? || childLimit.value == 0 then responseChildren else childLimit.value;
              |p.children| == if p.total <= asked && p.total <= maxGroups then p.total
                              else if asked <= maxGroups then asked else maxGroups
      ensures p.truncated <==> |p.children| < p.total
      ensures forall shown <- p.children, left <- r.children[|p.children|..] :: shown.stats.bytes >= left.stats.bytes
    {
      var limit := if childLimit.None? || childLimit.value == 0 then responseChildren else childLimit.value;
      limit := if limit <= maxGroups then limit else maxGroups;
      p := Public(Take(r.children, limit), |r.children|, |r.children| > limit);
    }
  }
}
