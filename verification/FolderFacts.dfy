/**
 What the numbers of a folder say about its files, row by row: how many there are, what
 their sizes add up to, and which times are the latest.
 */
module FolderFacts {
  import opened Wrappers
  import opened Paths
  import opened Folding

  type Column = Row -> Option<int>

  const SIZE: Column := (r: Row) => r.size
  const USED: Column := (r: Row) => r.used
  const MTIME: Column := (r: Row) => r.mtime
  const ATIME: Column := (r: Row) => r.atime

  // Nulls count for nothing.
  function Added(rows: Batch, column: Column): int {
    if rows == [] then 0 else
    Added(rows[..|rows| - 1], column) + match column(rows[|rows| - 1]) case None => 0 case Some(n) => n
  }

  // No time if no row has one; else the time of some row, and of no row a later one.
  ghost predicate IsLatest(time: Option<int>, rows: Batch, column: Column) {
    match time
    case None => forall r <- rows :: column(r) == None
    case Some(t) =>
      && (exists r <- rows :: column(r) == Some(t))
      && forall r <- rows :: column(r).Some? ==> column(r).value <= t
  }

  ghost predicate Describes(s: Stats, rows: Batch) {
    && s.files == |rows| && s.bytes == Added(rows, SIZE) && s.used == Added(rows, USED)
    && IsLatest(s.mtime, rows, MTIME) && IsLatest(s.atime, rows, ATIME)
  }

  // The rows whose key under a directory is a given one.
  ghost function Keyed(rows: Batch, prefix: string, depth: nat, key: string): Batch {
    if rows == [] then [] else
    var last := rows[|rows| - 1];
    Keyed(rows[..|rows| - 1], prefix, depth, key) + if GroupKey(last.parent, prefix, depth) == key then [last] else []
  }

  ghost predicate HasKey(rows: Batch, prefix: string, depth: nat, key: string) {
    exists r <- rows :: GroupKey(r.parent, prefix, depth) == key
  }

  // A group for every key that a row has, and in it what describes the rows of that key.
  ghost predicate GroupsDescribe(m: map<string, Stats>, rows: Batch, prefix: string, depth: nat) {
    && (forall k :: k in m <==> HasKey(rows, prefix, depth, k))
    && forall k <- m :: Describes(m[k], Keyed(rows, prefix, depth, k))
  }

  lemma LatestNext(time: Option<int>, rows: Batch, column: Column, r: Row)
    requires IsLatest(time, rows, column)
    ensures IsLatest(Newest(time, column(r)), rows + [r], column)
  {
    var all := rows + [r];
    assert forall x <- all :: x in rows || x == r;
    assert r in all && forall x <- rows :: x in all;
  }

  lemma AddedNext(rows: Batch, column: Column, r: Row)
    ensures Added(rows + [r], column) == Added(rows, column) + OrZero(column(r))
  {
    assert (rows + [r])[..|rows|] == rows;
  }

  lemma DescribesNext(s: Stats, rows: Batch, r: Row)
    requires Describes(s, rows)
    ensures Describes(Merge(s, RowStats(r)), rows + [r])
  {
    hide IsLatest, Added, Newest, OrZero;
    AddedNext(rows, SIZE, r);
    AddedNext(rows, USED, r);
    LatestNext(s.mtime, rows, MTIME, r);
    LatestNext(s.atime, rows, ATIME, r);
  }

  lemma DescribesNothing()
    ensures Describes(ZERO, [])
  {
  }

  // Everything in a stream describes its rows.
  lemma {:induction false} SumDescribes(rows: Batch, prefix: string, depth: nat)
    ensures Describes(Sum(Tag(rows, prefix, depth)), rows)
  {
    hide Describes, Tag, GroupKey, Merge, RowStats;
    if rows == [] {
      DescribesNothing();
      assert Tag(rows, prefix, depth) == [];
    } else {
      var rest, last := rows[..|rows| - 1], rows[|rows| - 1];
      SumDescribes(rest, prefix, depth);
      DescribesNext(Sum(Tag(rest, prefix, depth)), rest, last);
      TagInit(rows, prefix, depth);
      assert rows == rest + [last];
    }
  }

  lemma TagInit(rows: Batch, prefix: string, depth: nat)
    requires rows != []
    ensures var items, last := Tag(rows, prefix, depth), rows[|rows| - 1];
            && items != [] && items[..|items| - 1] == Tag(rows[..|rows| - 1], prefix, depth)
            && items[|items| - 1] == Item(GroupKey(last.parent, prefix, depth), RowStats(last))
  {
  }

  lemma TotalNext(items: seq<Item>, x: Item, key: string)
    requires items != [] && items[|items| - 1] == x
    ensures var before := items[..|items| - 1];
            && Total(items, key) == (if x.key == key then Merge(Total(before, key), x.stats) else Total(before, key))
            && KeysOf(items) == KeysOf(before) + {x.key}
  {
    MergeZero(Total(items[..|items| - 1], key));
  }

  lemma NoRows(prefix: string, depth: nat, key: string)
    ensures Total(Tag([], prefix, depth), key) == ZERO && KeysOf(Tag([], prefix, depth)) == {}
  {
  }

  // What one group adds up to describes its rows.
  lemma {:induction false} TotalDescribes(rows: Batch, prefix: string, depth: nat, key: string)
    ensures Describes(Total(Tag(rows, prefix, depth), key), Keyed(rows, prefix, depth, key))
  {
    hide Describes, GroupKey, Total, Tag, KeysOf;
    if rows == [] {
      NoRows(prefix, depth, key);
      DescribesNothing();
    } else {
      var rest, last := rows[..|rows| - 1], rows[|rows| - 1];
      TotalDescribes(rest, prefix, depth, key);
      TagInit(rows, prefix, depth);
      TotalNext(Tag(rows, prefix, depth), Item(GroupKey(last.parent, prefix, depth), RowStats(last)), key);
      DescribesNext(Total(Tag(rest, prefix, depth), key), Keyed(rest, prefix, depth, key), last);
      assert Keyed(rest, prefix, depth, key) + [] == Keyed(rest, prefix, depth, key);
    }
  }

  // A group exists for a key exactly when some row has it.
  lemma {:induction false} KeysAreRows(rows: Batch, prefix: string, depth: nat, key: string)
    ensures key in KeysOf(Tag(rows, prefix, depth)) <==> HasKey(rows, prefix, depth, key)
  {
    hide GroupKey, Total, Tag, KeysOf;
    if rows == [] {
      NoRows(prefix, depth, key);
    } else {
      var rest, last := rows[..|rows| - 1], rows[|rows| - 1];
      KeysAreRows(rest, prefix, depth, key);
      TagInit(rows, prefix, depth);
      TotalNext(Tag(rows, prefix, depth), Item(GroupKey(last.parent, prefix, depth), RowStats(last)), key);
      assert rows == rest + [last] && last in rows;
      forall r <- rest
        ensures r in rows
      {
      }
      if r :| r in rows && GroupKey(r.parent, prefix, depth) == key {
        assert r in rest || r == last;
      }
    }
  }

  lemma GroupMapDescribes(rows: Batch, prefix: string, depth: nat)
    ensures GroupsDescribe(GroupMap(Tag(rows, prefix, depth)), rows, prefix, depth)
  {
    hide Describes, GroupKey, Total, Tag, KeysOf, GroupMap, HasKey, Keyed;
    var items := Tag(rows, prefix, depth);
    forall k
      ensures k in GroupMap(items) <==> HasKey(rows, prefix, depth, k)
      ensures k in GroupMap(items) ==> Describes(GroupMap(items)[k], Keyed(rows, prefix, depth, k))
    {
      GroupAt(items, k);
      KeysAreRows(rows, prefix, depth, k);
      TotalDescribes(rows, prefix, depth, k);
    }
  }

  // Which rows these are, each as often as it was there.
  lemma {:induction false} KeyedCount(rows: Batch, prefix: string, depth: nat, key: string, r: Row)
    ensures multiset(Keyed(rows, prefix, depth, key))[r]
            == if GroupKey(r.parent, prefix, depth) == key then multiset(rows)[r] else 0
  {
    hide GroupKey;
    if rows != [] {
      var rest, last := rows[..|rows| - 1], rows[|rows| - 1];
      KeyedCount(rest, prefix, depth, key, r);
      var more := if GroupKey(last.parent, prefix, depth) == key then [last] else [];
      CountsAdd(rows, rest, last, Keyed(rows, prefix, depth, key), Keyed(rest, prefix, depth, key), more, r);
    }
  }

  lemma CountsAdd(rows: Batch, rest: Batch, last: Row, all: Batch, before: Batch, more: Batch, r: Row)
    requires rows == rest + [last] && all == before + more && (more == [] || more == [last])
    ensures multiset(rows)[r] == multiset(rest)[r] + if r == last then 1 else 0
    ensures multiset(all)[r] == multiset(before)[r] + if more != [] && r == last then 1 else 0
  {
    assert multiset(rows) == multiset(rest) + multiset([last]);
    assert multiset(all) == multiset(before) + multiset(more);
  }
}
