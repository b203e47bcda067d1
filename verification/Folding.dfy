/**
 The meaning of a rollup: folder statistics as a commutative monoid, and the group
 map of a stream of keyed rows as one fold, whatever the order of the rows.
 */
module Folding {
  import opened Sets
  import opened Wrappers
  import opened Paths

  datatype Stats = Stats(files: int, bytes: int, used: int, mtime: Option<int>, atime: Option<int>)

  const ZERO := Stats(0, 0, 0, None, None)

  // A FILE row; sizes and times may be null.
  datatype Row = Row(parent: string, size: Option<int>, used: Option<int>, mtime: Option<int>, atime: Option<int>)

  type Batch = seq<Row>

  function Newest(current: Option<int>, candidate: Option<int>): Option<int> {
    if current.None? then candidate
    else if candidate.None? then current
    else Some(if current.value >= candidate.value then current.value else candidate.value)
  }

  function OrZero(x: Option<int>): int { if x.None? then 0 else x.value }

  function Merge(a: Stats, b: Stats): Stats {
    Stats(a.files + b.files, a.bytes + b.bytes, a.used + b.used,
          Newest(a.mtime, b.mtime), Newest(a.atime, b.atime))
  }

  lemma MergeZero(a: Stats)
    ensures Merge(a, ZERO) == a == Merge(ZERO, a)
  {
  }

  lemma MergeCommutes(a: Stats, b: Stats)
    ensures Merge(a, b) == Merge(b, a)
  {
  }

  lemma MergeAssociates(a: Stats, b: Stats, c: Stats)
    ensures Merge(Merge(a, b), c) == Merge(a, Merge(b, c))
  {
  }

  lemma MergeExchanges(a: Stats, b: Stats, x: Stats, y: Stats)
    ensures Merge(Merge(a, b), Merge(x, y)) == Merge(Merge(a, x), Merge(b, y))
  {
  }

  // ---- keyed rows ----------------------------------------------------------------

  datatype Item = Item(key: string, stats: Stats)

  function RowStats(r: Row): Stats {
    Stats(1, OrZero(r.size), OrZero(r.used), r.mtime, r.atime)
  }

  function Tag(rows: Batch, prefix: string, depth: nat): (items: seq<Item>)
    ensures |items| == |rows|
    ensures forall i :: 0 <= i < |rows| ==>
      items[i] == Item(GroupKey(rows[i].parent, prefix, depth), RowStats(rows[i]))
  {
    seq(|rows|, i requires 0 <= i < |rows| => Item(GroupKey(rows[i].parent, prefix, depth), RowStats(rows[i])))
  }

  lemma TagConcat(a: Batch, b: Batch, prefix: string, depth: nat)
    ensures Tag(a + b, prefix, depth) == Tag(a, prefix, depth) + Tag(b, prefix, depth)
  {
  }

  // ---- the fold --------------------------------------------------------------------

  function Pick(item: Item, key: string): Stats { if item.key == key then item.stats else ZERO }

  // Everything in the stream that carries one key.
  function Total(items: seq<Item>, key: string): Stats {
    if items == [] then ZERO
    else Merge(Total(items[..|items| - 1], key), Pick(items[|items| - 1], key))
  }

  // Everything in the stream whose key is in a set.
  function TotalIn(items: seq<Item>, keys: set<string>): Stats {
    if items == [] then ZERO
    else var last := items[|items| - 1];
         Merge(TotalIn(items[..|items| - 1], keys), if last.key in keys then last.stats else ZERO)
  }

  // Everything in the stream.
  function Sum(items: seq<Item>): Stats {
    if items == [] then ZERO
    else Merge(Sum(items[..|items| - 1]), items[|items| - 1].stats)
  }

  function KeysOf(items: seq<Item>): set<string> {
    if items == [] then {} else KeysOf(items[..|items| - 1]) + {items[|items| - 1].key}
  }

  function At(m: map<string, Stats>, k: string): Stats { if k in m then m[k] else ZERO }

  function Put(m: map<string, Stats>, item: Item): map<string, Stats> {
    m[item.key := Merge(At(m, item.key), item.stats)]
  }

  // The reference: one sequential fold of the stream into a dictionary.
  function FoldInto(m: map<string, Stats>, items: seq<Item>): map<string, Stats> {
    if items == [] then m else Put(FoldInto(m, items[..|items| - 1]), items[|items| - 1])
  }

  function GroupMap(items: seq<Item>): map<string, Stats> { FoldInto(map[], items) }

  // Two dictionaries merged key by key.
  ghost predicate IsMerge(r: map<string, Stats>, a: map<string, Stats>, b: map<string, Stats>) {
    r.Keys == a.Keys + b.Keys && forall k :: At(r, k) == Merge(At(a, k), At(b, k))
  }

  lemma MergeUnique(r: map<string, Stats>, q: map<string, Stats>, a: map<string, Stats>, b: map<string, Stats>)
    requires IsMerge(r, a, b) && IsMerge(q, a, b)
    ensures r == q
  {
    forall k | k in r
      ensures r[k] == q[k]
    {
      assert At(r, k) == At(q, k);
    }
  }

  // Two streams with the same keys and the same totals for each key.
  ghost predicate SameGroups(a: seq<Item>, b: seq<Item>) {
    KeysOf(a) == KeysOf(b) && forall k :: Total(a, k) == Total(b, k)
  }

  lemma {:induction false} KeyAt(items: seq<Item>, i: nat)
    requires i < |items|
    ensures items[i].key in KeysOf(items)
  {
    if i < |items| - 1 {
      KeyAt(items[..|items| - 1], i);
    }
  }

  lemma {:induction false} KeyFrom(items: seq<Item>, k: string) returns (i: nat)
    requires k in KeysOf(items)
    ensures i < |items| && items[i].key == k
  {
    i := |items| - 1;
    if items[i].key != k {
      i := KeyFrom(items[..i], k);
    }
  }

  lemma {:induction false} TotalAbsent(items: seq<Item>, key: string)
    requires key !in KeysOf(items)
    ensures Total(items, key) == ZERO
  {
    if items != [] {
      TotalAbsent(items[..|items| - 1], key);
    }
  }

  lemma PutAt(m: map<string, Stats>, x: Item, k: string)
    ensures At(Put(m, x), k) == Merge(At(m, k), Pick(x, k))
  {
    MergeZero(At(m, k));
  }

  lemma {:induction false} FoldKeys(m: map<string, Stats>, items: seq<Item>)
    ensures FoldInto(m, items).Keys == m.Keys + KeysOf(items)
  {
    if items != [] {
      var rest, last := items[..|items| - 1], items[|items| - 1];
      FoldKeys(m, rest);
      assert FoldInto(m, items) == Put(FoldInto(m, rest), last);
      assert KeysOf(items) == KeysOf(rest) + {last.key};
    }
  }

  // What the fold leaves under each key.
  lemma {:induction false} FoldAt(m: map<string, Stats>, items: seq<Item>, k: string)
    ensures At(FoldInto(m, items), k) == Merge(At(m, k), Total(items, k))
  {
    if items == [] {
      MergeZero(At(m, k));
    } else {
      var rest, last := items[..|items| - 1], items[|items| - 1];
      calc {
        At(FoldInto(m, items), k);
        At(Put(FoldInto(m, rest), last), k);
        { PutAt(FoldInto(m, rest), last, k); }
        Merge(At(FoldInto(m, rest), k), Pick(last, k));
        { FoldAt(m, rest, k); }
        Merge(Merge(At(m, k), Total(rest, k)), Pick(last, k));
        { MergeAssociates(At(m, k), Total(rest, k), Pick(last, k)); }
        Merge(At(m, k), Merge(Total(rest, k), Pick(last, k)));
        Merge(At(m, k), Total(items, k));
      }
    }
  }

  lemma GroupAt(items: seq<Item>, key: string)
    ensures At(GroupMap(items), key) == Total(items, key)
    ensures GroupMap(items).Keys == KeysOf(items)
  {
    hide FoldInto, Total, KeysOf, Merge;
    FoldKeys(map[], items);
    FoldAt(map[], items, key);
    MergeZero(Total(items, key));
  }

  // Folding a stream into a dictionary merges in its groups.
  lemma FoldMerges(m: map<string, Stats>, items: seq<Item>)
    ensures IsMerge(FoldInto(m, items), m, GroupMap(items))
  {
    FoldKeys(m, items);
    FoldKeys(map[], items);
    forall k
      ensures At(FoldInto(m, items), k) == Merge(At(m, k), At(GroupMap(items), k))
    {
      FoldAt(m, items, k);
      GroupAt(items, k);
    }
  }

  lemma FoldSame(m: map<string, Stats>, a: seq<Item>, b: seq<Item>)
    requires SameGroups(a, b)
    ensures FoldInto(m, a) == FoldInto(m, b)
  {
    FoldKeys(m, a);
    FoldKeys(m, b);
    forall k | k in FoldInto(m, a)
      ensures FoldInto(m, a)[k] == FoldInto(m, b)[k]
    {
      FoldAt(m, a, k);
      FoldAt(m, b, k);
    }
  }

  lemma {:induction false} FoldConcat(m: map<string, Stats>, a: seq<Item>, b: seq<Item>)
    ensures FoldInto(m, a + b) == FoldInto(FoldInto(m, a), b)
    decreases |b|
  {
    if b == [] {
      assert a + b == a;
    } else {
      FoldConcat(m, a, b[..|b| - 1]);
      assert (a + b)[..|a + b| - 1] == a + b[..|b| - 1];
    }
  }

  lemma {:induction false} TotalConcat(a: seq<Item>, b: seq<Item>, key: string)
    ensures Total(a + b, key) == Merge(Total(a, key), Total(b, key))
    decreases |b|
  {
    if b == [] {
      assert a + b == a;
      MergeZero(Total(a, key));
    } else {
      var rest, last := b[..|b| - 1], b[|b| - 1];
      TotalConcat(a, rest, key);
      var all := a + b;
      assert all[..|all| - 1] == a + rest && all[|all| - 1] == last;
      MergeAssociates(Total(a, key), Total(rest, key), Pick(last, key));
      calc {
        Total(all, key);
        Merge(Total(a + rest, key), Pick(last, key));
        Merge(Merge(Total(a, key), Total(rest, key)), Pick(last, key));
        Merge(Total(a, key), Merge(Total(rest, key), Pick(last, key)));
        Merge(Total(a, key), Total(b, key));
      }
    }
  }

  lemma {:induction false} KeysConcat(a: seq<Item>, b: seq<Item>)
    ensures KeysOf(a + b) == KeysOf(a) + KeysOf(b)
    decreases |b|
  {
    if b == [] {
      assert a + b == a;
    } else {
      KeysConcat(a, b[..|b| - 1]);
      assert (a + b)[..|a + b| - 1] == a + b[..|b| - 1];
    }
  }

  // ---- order does not matter -----------------------------------------------------------

  lemma TotalSwap(a: seq<Item>, x: Item, b: seq<Item>, key: string)
    ensures Total(a + [x] + b, key) == Merge(Total(a + b, key), Pick(x, key))
  {
    TotalConcat(a + [x], b, key);
    TotalConcat(a, b, key);
    assert (a + [x])[..|a + [x]| - 1] == a;
    MergeAssociates(Total(a, key), Pick(x, key), Total(b, key));
    MergeAssociates(Total(a, key), Total(b, key), Pick(x, key));
    MergeCommutes(Pick(x, key), Total(b, key));
  }

  lemma {:induction false} TotalPermutes(a: seq<Item>, b: seq<Item>, key: string)
    requires multiset(a) == multiset(b)
    ensures Total(a, key) == Total(b, key)
    decreases |a|
  {
    if a == [] {
      SameEmpty(a, b);
    } else {
      hide Total;
      var i := TakeLast(a, b);
      var x := a[|a| - 1];
      TotalPermutes(a[..|a| - 1], b[..i] + b[i + 1..], key);
      TotalSwap(a[..|a| - 1], x, [], key);
      TotalSwap(b[..i], x, b[i + 1..], key);
      assert a[..|a| - 1] + [x] + [] == a && a[..|a| - 1] + [] == a[..|a| - 1];
    }
  }

  lemma KeysPermute(a: seq<Item>, b: seq<Item>)
    requires multiset(a) == multiset(b)
    ensures KeysOf(a) == KeysOf(b)
  {
    KeysWithin(a, b);
    KeysWithin(b, a);
  }

  lemma KeysWithin(a: seq<Item>, b: seq<Item>)
    requires multiset(a) == multiset(b)
    ensures KeysOf(a) <= KeysOf(b)
  {
    forall k | k in KeysOf(a)
      ensures k in KeysOf(b)
    {
      var i := KeyFrom(a, k);
      assert a[i] in multiset(b);
      var j :| 0 <= j < |b| && b[j] == a[i];
      KeyAt(b, j);
    }
  }

  lemma PermutationSameGroups(a: seq<Item>, b: seq<Item>)
    requires multiset(a) == multiset(b)
    ensures SameGroups(a, b) && GroupMap(a) == GroupMap(b)
  {
    KeysPermute(a, b);
    forall k
      ensures Total(a, k) == Total(b, k)
    {
      TotalPermutes(a, b, k);
    }
    FoldSame(map[], a, b);
  }

  // ---- batches ----------------------------------------------------------------------------

  function Flat<T>(batches: seq<seq<T>>): seq<T> {
    if batches == [] then [] else Flat(batches[..|batches| - 1]) + batches[|batches| - 1]
  }

  lemma FlatSnoc<T>(a: seq<seq<T>>, x: seq<T>)
    ensures Flat(a + [x]) == Flat(a) + x
  {
    assert (a + [x])[..|a|] == a;
  }

  lemma {:induction false} FlatConcat<T>(a: seq<seq<T>>, b: seq<seq<T>>)
    ensures Flat(a + b) == Flat(a) + Flat(b)
    decreases |b|
  {
    if b == [] {
      assert a + b == a;
    } else {
      hide Flat;
      var rest, last := b[..|b| - 1], b[|b| - 1];
      FlatConcat(a, rest);
      FlatSnoc(a + rest, last);
      FlatSnoc(rest, last);
      assert a + b == a + rest + [last] && b == rest + [last];
    }
  }

  lemma {:induction false} FlatPermutes<T>(a: seq<seq<T>>, b: seq<seq<T>>)
    requires multiset(a) == multiset(b)
    ensures multiset(Flat(a)) == multiset(Flat(b))
    decreases |a|
  {
    if a == [] {
      SameEmpty(a, b);
    } else {
      hide Flat;
      var i := TakeLast(a, b);
      var rest, x := a[..|a| - 1], a[|a| - 1];
      assert a == rest + [x];
      FlatPermutes(rest, b[..i] + b[i + 1..]);
      FlatSnoc(rest, x);
      FlatConcat(b[..i] + [x], b[i + 1..]);
      FlatSnoc(b[..i], x);
      FlatConcat(b[..i], b[i + 1..]);
    }
  }

  // ---- conservation --------------------------------------------------------------------------

  lemma {:induction false} TotalInSplits(items: seq<Item>, keys: set<string>, k: string)
    requires k !in keys
    ensures TotalIn(items, keys + {k}) == Merge(TotalIn(items, keys), Total(items, k))
  {
    if items != [] {
      var rest, last := items[..|items| - 1], items[|items| - 1];
      TotalInSplits(rest, keys, k);
      var a, b := TotalIn(rest, keys), Total(rest, k);
      var x := if last.key in keys then last.stats else ZERO;
      var y := Pick(last, k);
      MergeExchanges(a, b, x, y);
      assert TotalIn(items, keys) == Merge(a, x);
      assert Total(items, k) == Merge(b, y);
      MergeZero(last.stats);
    }
  }

  lemma {:induction false} TotalInNone(items: seq<Item>)
    ensures TotalIn(items, {}) == ZERO
  {
    if items != [] {
      TotalInNone(items[..|items| - 1]);
    }
  }

  lemma {:induction false} TotalInAll(items: seq<Item>, keys: set<string>)
    requires KeysOf(items) <= keys
    ensures TotalIn(items, keys) == Sum(items)
  {
    if items != [] {
      var rest := items[..|items| - 1];
      TotalInAll(rest, keys);
    }
  }

  // Every row counts as one file.
  lemma {:induction false} SumCountsRows(rows: Batch, prefix: string, depth: nat)
    ensures Sum(Tag(rows, prefix, depth)).files == |rows|
  {
    if rows != [] {
      var items := Tag(rows, prefix, depth);
      assert items[..|items| - 1] == Tag(rows[..|rows| - 1], prefix, depth);
      SumCountsRows(rows[..|rows| - 1], prefix, depth);
    }
  }

  // ---- regrouping at a smaller depth -------------------------------------------------------------

  function Shorten(key: string, depth: nat): string { GroupKey(key, "", depth) }

  function ShortenAll(items: seq<Item>, depth: nat): (short: seq<Item>)
    ensures |short| == |items|
    ensures forall i :: 0 <= i < |items| ==> short[i] == Item(Shorten(items[i].key, depth), items[i].stats)
  {
    seq(|items|, i requires 0 <= i < |items| => Item(Shorten(items[i].key, depth), items[i].stats))
  }

  // The keys of a set whose truncation is k.
  function Under(keys: set<string>, k: string, depth: nat): set<string> {
    set key | key in keys && Shorten(key, depth) == k
  }

  lemma {:induction false} TotalShortens(items: seq<Item>, keys: set<string>, k: string, depth: nat)
    requires KeysOf(items) <= keys
    ensures Total(ShortenAll(items, depth), k) == TotalIn(items, Under(keys, k, depth))
  {
    if items != [] {
      var rest := items[..|items| - 1];
      TotalShortens(rest, keys, k, depth);
      assert ShortenAll(items, depth)[..|items| - 1] == ShortenAll(rest, depth);
    }
  }

  lemma TagShortens(rows: Batch, prefix: string, depth: nat, less: nat)
    requires 1 <= less <= depth
    ensures ShortenAll(Tag(rows, prefix, depth), less) == Tag(rows, prefix, less)
  {
    forall i | 0 <= i < |rows|
      ensures ShortenAll(Tag(rows, prefix, depth), less)[i] == Tag(rows, prefix, less)[i]
    {
      GroupKeyTruncates(rows[i].parent, prefix, depth, less);
    }
  }
}
