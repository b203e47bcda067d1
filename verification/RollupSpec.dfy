/**
 What a rollup of one catalog snapshot is, and what follows from it: conservation of
 totals, agreement between depths, and the counting argument behind seeding child
 directories from a limited query.
 */
module RollupSpec {
  import opened Wrappers
  import opened Sets
  import opened Paths
  import opened Folding
  import opened FolderFacts
  import opened Rollup

  // The epoch a query is pinned to; None reads whatever the live table shows.
  type Epoch = Option<string>

  datatype Dir = Dir(parent: string, name: string)

  datatype Snapshot = Snapshot(files: Batch, dirs: seq<Dir>)
  {
    // Directory names are path components.
    ghost predicate Sane() { forall d <- dirs :: Component(d.name) }
  }

  datatype Child = Child(name: string, stats: Stats)

  datatype Totals = Totals(files: int, bytes: int, used: int, mtime: Option<int>)

  datatype RollupResult = RollupResult(path: string, epoch: Epoch, rowsScanned: nat,
                                       children: seq<Child>, totals: Totals)

  ghost function FilesUnder(files: Batch, prefix: string): Batch {
    if files == [] then [] else
    var last := files[|files| - 1];
    FilesUnder(files[..|files| - 1], prefix) + if prefix <= last.parent then [last] else []
  }

  ghost function ChildNames(dirs: seq<Dir>, prefix: string): set<string> {
    set d <- dirs | d.parent == prefix :: d.name
  }

  ghost function FileItems(snap: Snapshot, prefix: string, depth: nat): seq<Item> {
    Tag(FilesUnder(snap.files, prefix), prefix, depth)
  }

  // Every group: those of the files and the immediate child directories.
  ghost function GroupNames(snap: Snapshot, prefix: string, depth: nat): set<string> {
    KeysOf(FileItems(snap, prefix, depth)) + ChildNames(snap.dirs, prefix)
  }

  function Listed(children: seq<Child>): (items: seq<Item>)
    ensures |items| == |children|
    ensures forall i :: 0 <= i < |items| ==> items[i] == Item(children[i].name, children[i].stats)
  {
    seq(|children|, i requires 0 <= i < |children| => Item(children[i].name, children[i].stats))
  }

  ghost predicate OnceEach(children: seq<Child>) {
    forall i, j :: 0 <= i < j < |children| ==> children[i].name != children[j].name
  }

  ghost predicate Descending(children: seq<Child>) {
    forall i, j :: 0 <= i < j < |children| ==> children[i].stats.bytes >= children[j].stats.bytes
  }

  function TotalsOf(s: Stats): Totals { Totals(s.files, s.bytes, s.used, s.mtime) }

  // The children are exactly the groups, each once, each with everything its files add up to.
  ghost predicate Partitions(children: seq<Child>, snap: Snapshot, prefix: string, depth: nat) {
    && OnceEach(children)
    && KeysOf(Listed(children)) == GroupNames(snap, prefix, depth)
    && forall c <- children :: c.stats == Total(FileItems(snap, prefix, depth), c.name)
  }

  ghost predicate IsRollup(r: RollupResult, snap: Snapshot, epoch: Epoch, prefix: string, depth: nat) {
    && r.path == prefix && r.epoch == epoch
    && Partitions(r.children, snap, prefix, depth) && Descending(r.children)
    && r.rowsScanned == |FilesUnder(snap.files, prefix)|
    && r.totals == TotalsOf(Sum(FileItems(snap, prefix, depth)))
  }

  // ---- what a rollup says of the rows themselves ----------------------------------------------

  ghost predicate DescribesAll(t: Totals, rows: Batch) {
    && t.files == |rows| && t.bytes == Added(rows, SIZE) && t.used == Added(rows, USED)
    && IsLatest(t.mtime, rows, MTIME)
  }

  // Children are the keys of the files in the subtree and the child directories; the numbers
  // of each describe the files with its key, and the totals describe all of them.
  ghost predicate Reports(r: RollupResult, snap: Snapshot, prefix: string, depth: nat) {
    var files := FilesUnder(snap.files, prefix);
    && (forall c <- r.children :: Describes(c.stats, Keyed(files, prefix, depth, c.name)))
    && (forall name :: HasChild(r.children, name)
                       <==> HasKey(files, prefix, depth, name) || Dir(prefix, name) in snap.dirs)
    && DescribesAll(r.totals, files) && r.rowsScanned == |files|
  }

  ghost predicate HasChild(children: seq<Child>, name: string) {
    exists c <- children :: c.name == name
  }

  lemma RollupReports(r: RollupResult, snap: Snapshot, epoch: Epoch, prefix: string, depth: nat)
    requires IsRollup(r, snap, epoch, prefix, depth)
    ensures Reports(r, snap, prefix, depth)
  {
    hide Describes, Added, IsLatest, Total, Sum, KeysOf, FilesUnder, Keyed, Tag, HasKey, HasChild;
    var files := FilesUnder(snap.files, prefix);
    forall c <- r.children
      ensures Describes(c.stats, Keyed(files, prefix, depth, c.name))
    {
      TotalDescribes(files, prefix, depth, c.name);
    }
    forall name
      ensures HasChild(r.children, name) <==> HasKey(files, prefix, depth, name) || Dir(prefix, name) in snap.dirs
    {
      GroupNamesAre(snap, prefix, depth, name);
      ListedNames(r.children, name);
    }
    SumDescribesAll(r.totals, files, prefix, depth);
  }

  // A group is the key of a file in the subtree or an immediate child directory.
  lemma GroupNamesAre(snap: Snapshot, prefix: string, depth: nat, name: string)
    ensures name in GroupNames(snap, prefix, depth)
            <==> HasKey(FilesUnder(snap.files, prefix), prefix, depth, name) || Dir(prefix, name) in snap.dirs
  {
    KeysAreRows(FilesUnder(snap.files, prefix), prefix, depth, name);
  }

  // Which files a subtree has, each as often as the snapshot.
  lemma {:induction false} FilesCount(files: Batch, prefix: string, f: Row)
    ensures multiset(FilesUnder(files, prefix))[f] == if prefix <= f.parent then multiset(files)[f] else 0
  {
    hide FilesUnder;
    UnderNext(files, prefix);
    if files != [] {
      var rest, last := files[..|files| - 1], files[|files| - 1];
      FilesCount(rest, prefix, f);
      CountsAdd(files, rest, last, FilesUnder(files, prefix), FilesUnder(rest, prefix),
                if prefix <= last.parent then [last] else [], f);
    }
  }

  lemma UnderNext(files: Batch, prefix: string)
    ensures files == [] ==> FilesUnder(files, prefix) == []
    ensures files != [] ==>
      var last := files[|files| - 1];
      FilesUnder(files, prefix)
      == FilesUnder(files[..|files| - 1], prefix) + if prefix <= last.parent then [last] else []
  {
  }

  lemma SumDescribesAll(t: Totals, rows: Batch, prefix: string, depth: nat)
    requires t == TotalsOf(Sum(Tag(rows, prefix, depth)))
    ensures DescribesAll(t, rows)
  {
    SumDescribes(rows, prefix, depth);
  }

  lemma ListedNames(children: seq<Child>, name: string)
    ensures name in KeysOf(Listed(children)) <==> HasChild(children, name)
  {
    hide KeysOf;
    if name in KeysOf(Listed(children)) {
      var i := KeyFrom(Listed(children), name);
      assert children[i] in children;
    }
    if HasChild(children, name) {
      var i :| 0 <= i < |children| && children[i].name == name;
      KeyAt(Listed(children), i);
    }
  }

  // ---- conservation -----------------------------------------------------------------------

  // The children add up to the totals, and every row scanned is one file of one child.
  lemma Conserves(r: RollupResult, snap: Snapshot, epoch: Epoch, prefix: string, depth: nat)
    requires IsRollup(r, snap, epoch, prefix, depth)
    ensures r.totals == TotalsOf(Sum(Listed(r.children)))
    ensures r.totals.files == r.rowsScanned
  {
    var listed, items := Listed(r.children), FileItems(snap, prefix, depth);
    SumCountsRows(FilesUnder(snap.files, prefix), prefix, depth);
    SameTotals(r.children, snap, prefix, depth);
    var keys := GroupNames(snap, prefix, depth);
    SameTotalIn(listed, items, keys);
    TotalInAll(listed, keys);
    TotalInAll(items, keys);
  }

  // Key by key, the children carry what the files carry.
  lemma SameTotals(children: seq<Child>, snap: Snapshot, prefix: string, depth: nat)
    requires Partitions(children, snap, prefix, depth)
    ensures forall k :: Total(Listed(children), k) == Total(FileItems(snap, prefix, depth), k)
  {
    var listed, items := Listed(children), FileItems(snap, prefix, depth);
    forall k
      ensures Total(listed, k) == Total(items, k)
    {
      if k in KeysOf(listed) {
        var i := KeyFrom(listed, k);
        TotalDistinct(listed, i);
        assert children[i] in children;
      } else {
        TotalAbsent(listed, k);
        TotalAbsent(items, k);
      }
    }
  }

  lemma {:induction false} SameTotalIn(a: seq<Item>, b: seq<Item>, keys: set<string>)
    requires forall k :: Total(a, k) == Total(b, k)
    ensures TotalIn(a, keys) == TotalIn(b, keys)
    decreases |keys|
  {
    if keys == {} {
      TotalInNone(a);
      TotalInNone(b);
    } else {
      var k :| k in keys;
      var rest := keys - {k};
      assert rest + {k} == keys;
      SameTotalIn(a, b, rest);
      TotalInSplits(a, rest, k);
      TotalInSplits(b, rest, k);
    }
  }

  // ---- depth coherence -----------------------------------------------------------------------

  // Truncating the keys of a deeper rollup and merging again gives exactly the groups of a
  // shallower one, seeded directories included.
  lemma DepthsAgree(deep: seq<Child>, shallow: seq<Child>, snap: Snapshot, prefix: string, depth: nat, less: nat)
    requires 1 <= less <= depth && snap.Sane()
    requires Partitions(deep, snap, prefix, depth) && Partitions(shallow, snap, prefix, less)
    ensures GroupMap(ShortenAll(Listed(deep), less)) == GroupMap(Listed(shallow))
  {
    var short := ShortenAll(Listed(deep), less);
    ShortKeys(deep, shallow, snap, prefix, depth, less);
    forall k
      ensures Total(short, k) == Total(Listed(shallow), k)
    {
      ShortTotals(deep, shallow, snap, prefix, depth, less, k);
    }
    FoldSame(map[], short, Listed(shallow));
  }

  lemma ShortTotals(deep: seq<Child>, shallow: seq<Child>, snap: Snapshot, prefix: string, depth: nat, less: nat,
                    k: string)
    requires 1 <= less <= depth
    requires Partitions(deep, snap, prefix, depth) && Partitions(shallow, snap, prefix, less)
    ensures Total(ShortenAll(Listed(deep), less), k) == Total(Listed(shallow), k)
  {
    hide Total, TotalIn, KeysOf, Tag, ShortenAll;
    var rows := FilesUnder(snap.files, prefix);
    var listed, items := Listed(deep), Tag(rows, prefix, depth);
    var keys := GroupNames(snap, prefix, depth);
    SameTotals(deep, snap, prefix, depth);
    SameTotals(shallow, snap, prefix, less);
    TotalShortens(listed, keys, k, less);
    TotalShortens(items, keys, k, less);
    SameTotalIn(listed, items, Under(keys, k, less));
    TagShortens(rows, prefix, depth, less);
  }

  lemma ShortKeys(deep: seq<Child>, shallow: seq<Child>, snap: Snapshot, prefix: string, depth: nat, less: nat)
    requires 1 <= less <= depth && snap.Sane()
    requires Partitions(deep, snap, prefix, depth) && Partitions(shallow, snap, prefix, less)
    ensures KeysOf(ShortenAll(Listed(deep), less)) == KeysOf(Listed(shallow))
  {
    hide KeysOf, Tag;
    var listed := Listed(deep);
    var short := ShortenAll(listed, less);
    var rows := FilesUnder(snap.files, prefix);
    TagShortens(rows, prefix, depth, less);
    ShortenedKeys(listed, less);
    ShortenedKeys(Tag(rows, prefix, depth), less);
    forall d <- snap.dirs | d.parent == prefix
      ensures Shorten(d.name, less) == d.name
    {
      NameIsKey(d.name, less);
    }
    var names := ChildNames(snap.dirs, prefix);
    assert forall n <- names :: Shorten(n, less) == n;
    ShortenUnion(KeysOf(Tag(rows, prefix, depth)), names, less);
  }

  ghost function ShortSet(keys: set<string>, less: nat): set<string> {
    set k <- keys :: Shorten(k, less)
  }

  lemma ShortenUnion(a: set<string>, names: set<string>, less: nat)
    requires forall n <- names :: Shorten(n, less) == n
    ensures ShortSet(a + names, less) == ShortSet(a, less) + names
  {
    forall x | x in ShortSet(a, less) + names
      ensures x in ShortSet(a + names, less)
    {
      if x in names {
        assert Shorten(x, less) == x && x in a + names;
      } else {
        var k :| k in a && Shorten(k, less) == x;
        assert k in a + names;
      }
    }
  }

  lemma {:induction false} ShortenedKeys(items: seq<Item>, less: nat)
    ensures KeysOf(ShortenAll(items, less)) == ShortSet(KeysOf(items), less)
  {
    if items != [] {
      var rest, last := items[..|items| - 1], items[|items| - 1];
      ShortenedKeys(rest, less);
      var short := ShortenAll(items, less);
      assert short[..|short| - 1] == ShortenAll(rest, less);
      SetSnoc(KeysOf(rest), last.key, less);
    }
  }

  lemma SetSnoc(keys: set<string>, k: string, less: nat)
    ensures ShortSet(keys + {k}, less) == ShortSet(keys, less) + {Shorten(k, less)}
  {
    forall x | x in ShortSet(keys, less) + {Shorten(k, less)}
      ensures x in ShortSet(keys + {k}, less)
    {
      var y :| y in keys + {k} && Shorten(y, less) == x;
    }
  }

  // ---- seeding from a limited query -------------------------------------------------------------

  // What a query for at most `limit` names may answer: that many distinct matches if there
  // are so many, otherwise all of them.
  ghost predicate Answers(names: seq<string>, all: set<string>, limit: nat) {
    && Unique(names)
    && SetOf(names) <= all
    && |names| == if |all| <= limit then |all| else limit
  }

  // One name more than the cap is enough to decide whether all of them fit with the rest.
  lemma Pigeonhole(names: seq<string>, all: set<string>, groups: set<string>, max: nat)
    requires Answers(names, all, max + 1)
    ensures |groups + SetOf(names)| <= max <==> |groups + all| <= max
    ensures |groups + all| <= max ==> SetOf(names) == all
  {
    var some := SetOf(names);
    UniqueCount(names);
    SubsetCard(some, groups + some);
    SubsetCard(groups + some, groups + all);
    if |all| <= max + 1 {
      SameSize(some, all);
    }
  }
}
