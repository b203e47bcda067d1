/**
 Folding batches into a dictionary of folder totals: per-batch grouping and the cap on
 the number of groups.
 */
module Rollup {
  import opened Wrappers
  import opened Sets
  import opened Paths
  import opened Folding

  // ---- one folder's running totals --------------------------------------------------

  class FolderStats {
    var files: int
    var bytes: int
    var used: int
    var mtime: Option<int>
    var atime: Option<int>

    ghost function Value(): Stats
      reads this
    {
      Stats(files, bytes, used, mtime, atime)
    }

    constructor ()
      ensures Value() == ZERO
    {
      files, bytes, used, mtime, atime := 0, 0, 0, None, None;
    }

    method Add(files: int, nbytes: Option<int>, used: Option<int>, mtime: Option<int>, atime: Option<int>)
      modifies this
      ensures Value() == Merge(old(Value()), Stats(files, OrZero(nbytes), OrZero(used), mtime, atime))
      ensures this.files == old(this.files) + files
      ensures this.bytes == old(this.bytes) + match nbytes case None => 0 case Some(n) => n
      ensures this.used == old(this.used) + match used case None => 0 case Some(n) => n
      ensures this.mtime.None? <==> old(this.mtime).None? && mtime.None?
      ensures this.atime.None? <==> old(this.atime).None? && atime.None?
      ensures this.mtime in {old(this.mtime), mtime} && this.atime in {old(this.atime), atime}
      ensures forall t <- {old(this.mtime), mtime} :: t.Some? ==> t.value <= this.mtime.value
      ensures forall t <- {old(this.atime), atime} :: t.Some? ==> t.value <= this.atime.value
    {
      this.files := this.files + files;
      this.bytes := this.bytes + OrZero(nbytes);
      this.used := this.used + OrZero(used);
      this.mtime := Newest(this.mtime, mtime);
      this.atime := Newest(this.atime, atime);
    }
  }

  // ---- the dictionary of groups --------------------------------------------------------

  predicate Fits(max: nat, keys: set<string>) { max == 0 || |keys| <= max }

  ghost predicate Agree(a: map<string, Stats>, b: map<string, Stats>) {
    forall k :: At(a, k) == At(b, k)
  }

  class Groups {
    var table: map<string, FolderStats>
    ghost var Repr: set<FolderStats>

    ghost predicate Valid()
      reads this
    {
      && (forall k <- table :: table[k] in Repr)
      && (forall a <- table, b <- table :: a != b ==> table[a] != table[b])
    }

    ghost function View(): (m: map<string, Stats>)
      requires Valid()
      reads this, Repr
      ensures m.Keys == table.Keys
    {
      map k | k in table :: table[k].Value()
    }

    constructor ()
      ensures Valid() && View() == map[] && Repr == {}
    {
      table, Repr := map[], {};
    }

    // Add to the group of a key, creating it unless that would exceed the cap.
    method Fold(key: string, files: int, nbytes: Option<int>, used: Option<int>,
                mtime: Option<int>, atime: Option<int>, max: nat)
      returns (ok: bool)
      requires Valid()
      modifies this, Repr
      ensures Valid() && fresh(Repr - old(Repr))
      ensures ok <==> key in old(table.Keys) || max == 0 || |old(table.Keys)| < max
      ensures !ok ==> table == old(table) && View() == old(View())
      ensures ok ==> table.Keys == old(table.Keys) + {key}
      ensures ok ==> View() == Put(old(View()), Item(key, Stats(files, OrZero(nbytes), OrZero(used), mtime, atime)))
    {
      if key !in table && max > 0 && |table| >= max {
        return false;
      }
      ghost var before := View();
      if key !in table {
        Create(key);
      }
      ghost var mid := View();
      table[key].Add(files, nbytes, used, mtime, atime);
      assert forall k <- mid :: k != key ==> View()[k] == mid[k];
      AddedTo(before, mid, View(), key, Stats(files, OrZero(nbytes), OrZero(used), mtime, atime));
      ok := true;
    }

    // The group of a key was opened if need be, then added to.
    static lemma AddedTo(before: map<string, Stats>, mid: map<string, Stats>, now: map<string, Stats>,
                         key: string, s: Stats)
      requires mid == (if key in before then before else before[key := ZERO])
      requires now.Keys == mid.Keys && now[key] == Merge(mid[key], s)
      requires forall k <- mid :: k != key ==> now[k] == mid[k]
      ensures now == Put(before, Item(key, s))
    {
    }

    // setdefault(key, FolderStats())
    method SetDefault(key: string)
      requires Valid()
      modifies this
      ensures Valid() && fresh(Repr - old(Repr)) && old(Repr) <= Repr
      ensures table.Keys == old(table.Keys) + {key}
      ensures Agree(View(), old(View()))
    {
      if key !in table {
        Create(key);
      }
    }

    method Create(key: string)
      requires Valid() && key !in table
      modifies this
      ensures Valid() && fresh(Repr - old(Repr)) && old(Repr) <= Repr
      ensures table.Keys == old(table.Keys) + {key}
      ensures View() == old(View())[key := ZERO]
    {
      var created := new FolderStats();
      table, Repr := table[key := created], Repr + {created};
      Opened(key, created);
    }

    // One empty group was added and no other was touched.
    twostate lemma Opened(key: string, new created: FolderStats)
      requires old(Valid()) && key !in old(table) && created !in old(Repr)
      requires table == old(table)[key := created] && Repr == old(Repr) + {created} && created.Value() == ZERO
      requires forall a <- old(Repr) :: unchanged(a)
      ensures Valid() && View() == old(View())[key := ZERO]
    {
      assert forall k <- old(table) :: old(table)[k].Value() == old(table[k].Value());
    }
  }

  // ---- per-batch grouping ------------------------------------------------------------------

  // One row of a grouped batch: a count of all rows and null-skipping sums and maxima.
  datatype Summary = Summary(key: string, count: int, size: Option<int>, used: Option<int>,
                             mtime: Option<int>, atime: Option<int>)

  function NullSum(a: Option<int>, b: Option<int>): Option<int> {
    if a.None? then b else if b.None? then a else Some(a.value + b.value)
  }

  function Extend(s: Summary, r: Row): Summary {
    Summary(s.key, s.count + 1, NullSum(s.size, r.size), NullSum(s.used, r.used),
            Newest(s.mtime, r.mtime), Newest(s.atime, r.atime))
  }

  // What grouping a batch says of one key, column by column.
  function Column(rows: Batch, prefix: string, depth: nat, key: string): Summary {
    if rows == [] then Summary(key, 0, None, None, None, None) else
    var s, last := Column(rows[..|rows| - 1], prefix, depth, key), rows[|rows| - 1];
    if GroupKey(last.parent, prefix, depth) == key then Extend(s, last) else s
  }

  function Folded(s: Summary): Stats {
    Stats(s.count, OrZero(s.size), OrZero(s.used), s.mtime, s.atime)
  }

  function ItemsOf(out: seq<Summary>): (items: seq<Item>)
    ensures |items| == |out|
    ensures forall i :: 0 <= i < |out| ==> items[i] == Item(out[i].key, Folded(out[i]))
  {
    seq(|out|, i requires 0 <= i < |out| => Item(out[i].key, Folded(out[i])))
  }

  ghost predicate IsGroupBy(rows: Batch, prefix: string, depth: nat, out: seq<Summary>) {
    && (forall i, j :: 0 <= i < j < |out| ==> out[i].key != out[j].key)
    && (forall i :: 0 <= i < |out| ==> out[i] == Column(rows, prefix, depth, out[i].key))
    && KeysOf(ItemsOf(out)) == KeysOf(Tag(rows, prefix, depth))
  }

  // Nulls counted as rows but skipped in sums and maxima give the totals of the fold.
  lemma {:induction false} ColumnFolds(rows: Batch, prefix: string, depth: nat, key: string)
    ensures Folded(Column(rows, prefix, depth, key)) == Total(Tag(rows, prefix, depth), key)
    ensures Column(rows, prefix, depth, key).key == key
  {
    if rows != [] {
      hide GroupKey;
      var rest, last := rows[..|rows| - 1], rows[|rows| - 1];
      ColumnFolds(rest, prefix, depth, key);
      var items := Tag(rows, prefix, depth);
      assert items[..|items| - 1] == Tag(rest, prefix, depth);
      ColumnStepFolds(Column(rest, prefix, depth, key), last, GroupKey(last.parent, prefix, depth));
    }
  }

  // A row of the key extends its column as it extends the total; any other adds nothing.
  lemma ColumnStepFolds(s: Summary, r: Row, key: string)
    ensures Folded(if key == s.key then Extend(s, r) else s) == Merge(Folded(s), Pick(Item(key, RowStats(r)), s.key))
  {
  }

  // The library's group-by; callers rely only on IsGroupBy, so on no particular order.
  method GroupBy(rows: Batch, prefix: string, depth: nat) returns (out: seq<Summary>)
    ensures IsGroupBy(rows, prefix, depth, out)
  {
    hide *;
    out := [];
    NothingGrouped(rows, prefix, depth);
    for n := 0 to |rows|
      invariant IsGroupBy(rows[..n], prefix, depth, out)
    {
      var r := rows[n];
      var key := GroupKey(r.parent, prefix, depth);
      var i := 0;
      while i < |out| && out[i].key != key
        invariant 0 <= i <= |out|
        invariant forall j :: 0 <= j < i ==> out[j].key != key
      {
        i := i + 1;
      }
      GroupByStep(rows, n, prefix, depth, out, i);
      out := Placed(out, i, key, r);
    }
    assert rows[..|rows|] == rows;
  }

  lemma NothingGrouped(rows: Batch, prefix: string, depth: nat)
    ensures IsGroupBy(rows[..0], prefix, depth, [])
  {
  }

  lemma {:induction false} ColumnAbsent(rows: Batch, prefix: string, depth: nat, key: string)
    requires forall r <- rows :: GroupKey(r.parent, prefix, depth) != key
    ensures Column(rows, prefix, depth, key) == Summary(key, 0, None, None, None, None)
  {
    if rows != [] {
      ColumnAbsent(rows[..|rows| - 1], prefix, depth, key);
    }
  }

  lemma KeysOfSnoc(rows: Batch, n: nat, prefix: string, depth: nat)
    requires n < |rows|
    ensures KeysOf(Tag(rows[..n + 1], prefix, depth))
            == KeysOf(Tag(rows[..n], prefix, depth)) + {GroupKey(rows[n].parent, prefix, depth)}
  {
    TagConcat(rows[..n], [rows[n]], prefix, depth);
    assert rows[..n + 1] == rows[..n] + [rows[n]];
    KeysConcat(Tag(rows[..n], prefix, depth), Tag([rows[n]], prefix, depth));
    var one := Tag([rows[n]], prefix, depth);
    assert one[..0] == [];
  }

  function Placed(out: seq<Summary>, i: nat, key: string, r: Row): seq<Summary>
    requires i <= |out|
  {
    if i < |out| then out[i := Extend(out[i], r)]
    else out + [Extend(Summary(key, 0, None, None, None, None), r)]
  }

  lemma GroupByStep(rows: Batch, n: nat, prefix: string, depth: nat, out: seq<Summary>, i: nat)
    requires n < |rows| && IsGroupBy(rows[..n], prefix, depth, out) && i <= |out|
    requires var key := GroupKey(rows[n].parent, prefix, depth);
             (i < |out| ==> out[i].key == key) && forall j :: 0 <= j < i ==> out[j].key != key
    ensures IsGroupBy(rows[..n + 1], prefix, depth,
                      Placed(out, i, GroupKey(rows[n].parent, prefix, depth), rows[n]))
  {
    hide KeysOf, Tag, Column, GroupKey;
    var r, key := rows[n], GroupKey(rows[n].parent, prefix, depth);
    var next := Placed(out, i, key, r);
    KeysOfSnoc(rows, n, prefix, depth);
    StepKeys(out, i, next);
    forall j | 0 <= j < |next|
      ensures next[j] == Column(rows[..n + 1], prefix, depth, next[j].key)
    {
      ColumnStep(rows, n, prefix, depth, next[j].key);
      if j == |out| {
        NewColumn(rows[..n], prefix, depth, out, key);
      } else {
        assert out[j] == Column(rows[..n], prefix, depth, out[j].key);
        assert j != i ==> out[j].key != key;
      }
    }
  }

  lemma ColumnStep(rows: Batch, n: nat, prefix: string, depth: nat, key: string)
    requires n < |rows|
    ensures var s := Column(rows[..n], prefix, depth, key);
            Column(rows[..n + 1], prefix, depth, key)
            == if GroupKey(rows[n].parent, prefix, depth) == key then Extend(s, rows[n]) else s
  {
    assert rows[..n + 1][..n] == rows[..n];
  }

  lemma NewColumn(rows: Batch, prefix: string, depth: nat, out: seq<Summary>, key: string)
    requires IsGroupBy(rows, prefix, depth, out)
    requires forall j :: 0 <= j < |out| ==> out[j].key != key
    ensures Column(rows, prefix, depth, key) == Summary(key, 0, None, None, None, None)
  {
    FreshKey(ItemsOf(out), key);
    forall r <- rows
      ensures GroupKey(r.parent, prefix, depth) != key
    {
      var j :| 0 <= j < |rows| && rows[j] == r;
      KeyAt(Tag(rows, prefix, depth), j);
    }
    ColumnAbsent(rows, prefix, depth, key);
  }

  // Replacing a row of the same key, or adding one, adds just that key.
  lemma StepKeys(out: seq<Summary>, i: nat, next: seq<Summary>)
    requires i <= |out| && |next| == (if i < |out| then |out| else |out| + 1)
    requires forall j :: 0 <= j < |out| ==> next[j].key == out[j].key
    ensures KeysOf(ItemsOf(next)) == KeysOf(ItemsOf(out)) + {next[i].key}
  {
    var a, b := ItemsOf(out), ItemsOf(next);
    forall k | k in KeysOf(a)
      ensures k in KeysOf(b)
    {
      var j := KeyFrom(a, k);
      KeyAt(b, j);
    }
    forall k | k in KeysOf(b)
      ensures k in KeysOf(a) || k == next[i].key
    {
      var j := KeyFrom(b, k);
      if j < |a| {
        KeyAt(a, j);
      }
    }
    KeyAt(b, i);
  }

  lemma FreshKey(items: seq<Item>, key: string)
    requires forall j :: 0 <= j < |items| ==> items[j].key != key
    ensures key !in KeysOf(items) && Total(items, key) == ZERO
  {
    if key in KeysOf(items) {
      var j := KeyFrom(items, key);
    }
    TotalAbsent(items, key);
  }

  lemma TotalDistinct(items: seq<Item>, i: nat)
    requires i < |items| && forall a, b :: 0 <= a < b < |items| ==> items[a].key != items[b].key
    ensures Total(items, items[i].key) == items[i].stats
  {
    hide Total, KeysOf;
    var k, others := items[i].key, items[..i] + items[i + 1..];
    TotalSwap(items[..i], items[i], items[i + 1..], k);
    assert items[..i] + [items[i]] + items[i + 1..] == items;
    FreshKey(others, k);
    MergeZero(items[i].stats);
  }

  // The summaries of a batch stand for its rows.
  lemma GroupByMeans(rows: Batch, prefix: string, depth: nat, out: seq<Summary>)
    requires IsGroupBy(rows, prefix, depth, out)
    ensures SameGroups(ItemsOf(out), Tag(rows, prefix, depth))
  {
    var items := ItemsOf(out);
    forall k
      ensures Total(items, k) == Total(Tag(rows, prefix, depth), k)
    {
      if k in KeysOf(items) {
        var i := KeyFrom(items, k);
        TotalDistinct(items, i);
        ColumnFolds(rows, prefix, depth, k);
      } else {
        TotalAbsent(items, k);
        TotalAbsent(Tag(rows, prefix, depth), k);
      }
    }
  }

  // ---- folding a stream into the dictionary ------------------------------------------------------

  datatype Outcome = Rows(total: nat) | TooWide

  // Fold a list of per-key totals into the groups, in its order, under the cap.
  method FoldItems(items: seq<Item>, groups: Groups, max: nat) returns (ok: bool)
    requires groups.Valid() && Fits(max, groups.table.Keys)
    modifies groups, groups.Repr
    ensures groups.Valid() && fresh(groups.Repr - old(groups.Repr))
    ensures ok ==> groups.View() == FoldInto(old(groups.View()), items)
    ensures ok <==> Fits(max, old(groups.table.Keys) + KeysOf(items))
  {
    hide *;
    ghost var start := groups.View();
    FoldStart(start, items, max);
    for n := 0 to |items|
      invariant groups.Valid() && fresh(groups.Repr - old(groups.Repr))
      invariant FoldedTo(start, items, n, groups.View(), max)
    {
      ok := FoldItem(start, items, n, groups, max);
      if !ok {
        return;
      }
    }
    FoldEnd(start, items, groups.View(), max);
    ok := true;
  }

  lemma FoldStart(start: map<string, Stats>, items: seq<Item>, max: nat)
    requires Fits(max, start.Keys)
    ensures FoldedTo(start, items, 0, start, max)
  {
  }

  lemma FoldEnd(start: map<string, Stats>, items: seq<Item>, now: map<string, Stats>, max: nat)
    requires FoldedTo(start, items, |items|, now, max)
    ensures now == FoldInto(start, items) && Fits(max, start.Keys + KeysOf(items))
  {
    assert items[..|items|] == items;
  }

  method FoldItem(ghost start: map<string, Stats>, items: seq<Item>, n: nat, groups: Groups, max: nat)
    returns (ok: bool)
    requires groups.Valid() && n < |items| && FoldedTo(start, items, n, groups.View(), max)
    modifies groups, groups.Repr
    ensures groups.Valid() && fresh(groups.Repr - old(groups.Repr))
    ensures if ok then FoldedTo(start, items, n + 1, groups.View(), max)
            else !Fits(max, start.Keys + KeysOf(items))
  {
    hide FoldInto, KeysOf, FoldedTo;
    var s := items[n].stats;
    ghost var before := groups.View();
    ok := groups.Fold(items[n].key, s.files, Some(s.bytes), Some(s.used), s.mtime, s.atime, max);
    FoldStep(start, items, n, before, max, ok);
  }

  ghost predicate FoldedTo(start: map<string, Stats>, items: seq<Item>, n: nat, now: map<string, Stats>, max: nat)
    requires n <= |items|
  {
    now == FoldInto(start, items[..n]) && now.Keys == start.Keys + KeysOf(items[..n]) && Fits(max, now.Keys)
  }

  lemma FoldStep(start: map<string, Stats>, items: seq<Item>, n: nat, now: map<string, Stats>, max: nat, ok: bool)
    requires n < |items| && FoldedTo(start, items, n, now, max)
    requires ok <==> items[n].key in now.Keys || max == 0 || |now.Keys| < max
    ensures if ok then FoldedTo(start, items, n + 1, Put(now, items[n]), max)
            else !Fits(max, start.Keys + KeysOf(items))
  {
    StepFits(start.Keys, items, n, now.Keys, max, ok);
    var done := items[..n + 1];
    assert done[..n] == items[..n];
    assert FoldInto(start, done) == Put(FoldInto(start, done[..n]), items[n]);
    PutKeys(now, items[n]);
  }

  lemma PutKeys(m: map<string, Stats>, x: Item)
    ensures Put(m, x).Keys == m.Keys + {x.key}
  {
  }

  lemma StepFits(start: set<string>, items: seq<Item>, n: nat, keys: set<string>, max: nat, ok: bool)
    requires n < |items| && keys == start + KeysOf(items[..n]) && Fits(max, keys)
    requires ok <==> items[n].key in keys || max == 0 || |keys| < max
    ensures keys + {items[n].key} == start + KeysOf(items[..n + 1])
    ensures ok ==> Fits(max, keys + {items[n].key})
    ensures !ok ==> !Fits(max, start + KeysOf(items))
  {
    KeysNext(items, n);
    hide KeysOf;
    if items[n].key in keys {
      assert keys + {items[n].key} == keys;
    }
    if !ok {
      SubsetCard(keys + {items[n].key}, start + KeysOf(items));
    }
  }

  lemma KeysNext(items: seq<Item>, n: nat)
    requires n < |items|
    ensures KeysOf(items[..n + 1]) == KeysOf(items[..n]) + {items[n].key} <= KeysOf(items)
  {
    assert items[..n + 1][..n] == items[..n];
    KeysConcat(items[..n + 1], items[n + 1..]);
    assert items[..n + 1] + items[n + 1..] == items;
  }

  // Fold one batch into the groups.
  method AggregateBatch(batch: Batch, prefix: string, depth: nat, groups: Groups, max: nat) returns (ok: bool)
    requires groups.Valid() && Fits(max, groups.table.Keys)
    modifies groups, groups.Repr
    ensures groups.Valid() && fresh(groups.Repr - old(groups.Repr))
    ensures ok ==> groups.View() == FoldInto(old(groups.View()), Tag(batch, prefix, depth))
    ensures ok <==> Fits(max, old(groups.table.Keys) + KeysOf(Tag(batch, prefix, depth)))
  {
    hide *;
    var summary := GroupBy(batch, prefix, depth);
    GroupByMeans(batch, prefix, depth, summary);
    FoldSame(groups.View(), ItemsOf(summary), Tag(batch, prefix, depth));
    ok := FoldItems(ItemsOf(summary), groups, max);
  }

  // Fold a stream of batches, one after the other.
  method AggregateReader(reader: seq<Batch>, prefix: string, depth: nat, groups: Groups, max: nat)
    returns (r: Outcome)
    requires groups.Valid() && Fits(max, groups.table.Keys)
    modifies groups, groups.Repr
    ensures groups.Valid() && fresh(groups.Repr - old(groups.Repr))
    ensures r.Rows? ==> r.total == |Flat(reader)|
    ensures r.Rows? ==> groups.View() == FoldInto(old(groups.View()), Tag(Flat(reader), prefix, depth))
    ensures r.Rows? <==> Fits(max, old(groups.table.Keys) + KeysOf(Tag(Flat(reader), prefix, depth)))
  {
    hide *;
    var rows := 0;
    ghost var start := groups.View();
    ConsumeStart(start, reader, prefix, depth, max);
    for n := 0 to |reader|
      invariant groups.Valid() && fresh(groups.Repr - old(groups.Repr))
      invariant rows == |Flat(reader[..n])|
      invariant Consumed(start, reader, n, prefix, depth, groups.View(), max)
    {
      if |reader[n]| == 0 {
        ConsumeNothing(start, reader, n, prefix, depth, groups.View(), max);
        continue;
      }
      var ok := ConsumeBatch(start, reader, n, prefix, depth, groups, max);
      if !ok {
        return TooWide;
      }
      rows := rows + |reader[n]|;
    }
    ConsumeEnd(start, reader, prefix, depth, groups.View(), max);
    r := Rows(rows);
  }

  lemma ConsumeStart(start: map<string, Stats>, reader: seq<Batch>, prefix: string, depth: nat, max: nat)
    requires Fits(max, start.Keys)
    ensures Flat(reader[..0]) == [] && Consumed(start, reader, 0, prefix, depth, start, max)
  {
  }

  lemma ConsumeEnd(start: map<string, Stats>, reader: seq<Batch>, prefix: string, depth: nat,
                   now: map<string, Stats>, max: nat)
    requires Consumed(start, reader, |reader|, prefix, depth, now, max)
    ensures reader[..|reader|] == reader && now == FoldInto(start, Tag(Flat(reader), prefix, depth))
    ensures Fits(max, start.Keys + KeysOf(Tag(Flat(reader), prefix, depth)))
  {
  }

  method ConsumeBatch(ghost start: map<string, Stats>, reader: seq<Batch>, n: nat, prefix: string, depth: nat,
                      groups: Groups, max: nat) returns (ok: bool)
    requires groups.Valid() && n < |reader| && Consumed(start, reader, n, prefix, depth, groups.View(), max)
    modifies groups, groups.Repr
    ensures groups.Valid() && fresh(groups.Repr - old(groups.Repr))
    ensures if ok then Consumed(start, reader, n + 1, prefix, depth, groups.View(), max)
            else !Fits(max, start.Keys + KeysOf(Tag(Flat(reader), prefix, depth)))
    ensures |Flat(reader[..n + 1])| == |Flat(reader[..n])| + |reader[n]|
  {
    hide FoldInto, KeysOf, Tag, Flat;
    ghost var before := groups.View();
    ok := AggregateBatch(reader[n], prefix, depth, groups, max);
    ConsumeStep(start, reader, n, prefix, depth, before, groups.View(), max, ok);
  }

  // The groups after folding in the first n batches of a stream.
  ghost predicate Consumed(start: map<string, Stats>, reader: seq<Batch>, n: nat, prefix: string, depth: nat,
                           now: map<string, Stats>, max: nat)
    requires n <= |reader|
  {
    var items := Tag(Flat(reader[..n]), prefix, depth);
    now == FoldInto(start, items) && now.Keys == start.Keys + KeysOf(items) && Fits(max, now.Keys)
  }

  lemma ConsumeStep(start: map<string, Stats>, reader: seq<Batch>, n: nat, prefix: string, depth: nat,
                    now: map<string, Stats>, next: map<string, Stats>, max: nat, ok: bool)
    requires n < |reader| && Consumed(start, reader, n, prefix, depth, now, max)
    requires ok ==> next == FoldInto(now, Tag(reader[n], prefix, depth))
    requires ok <==> Fits(max, now.Keys + KeysOf(Tag(reader[n], prefix, depth)))
    ensures if ok then Consumed(start, reader, n + 1, prefix, depth, next, max)
            else !Fits(max, start.Keys + KeysOf(Tag(Flat(reader), prefix, depth)))
    ensures |Flat(reader[..n + 1])| == |Flat(reader[..n])| + |reader[n]|
  {
    hide KeysOf, Tag, Flat, FoldInto;
    FlatStep(reader, n, prefix, depth, start);
    if ok {
      FoldKeys(now, Tag(reader[n], prefix, depth));
    } else {
      assert now.Keys + KeysOf(Tag(reader[n], prefix, depth))
          == start.Keys + KeysOf(Tag(Flat(reader[..n + 1]), prefix, depth));
      WiderThan(reader, n, prefix, depth, start.Keys, max);
    }
  }

  lemma ConsumeNothing(start: map<string, Stats>, reader: seq<Batch>, n: nat, prefix: string, depth: nat,
                       now: map<string, Stats>, max: nat)
    requires n < |reader| && reader[n] == [] && Consumed(start, reader, n, prefix, depth, now, max)
    ensures Consumed(start, reader, n + 1, prefix, depth, now, max)
    ensures |Flat(reader[..n + 1])| == |Flat(reader[..n])|
  {
    FlatStep(reader, n, prefix, depth, start);
    assert Flat(reader[..n]) + [] == Flat(reader[..n]);
  }

  lemma FlatStep(reader: seq<Batch>, n: nat, prefix: string, depth: nat, start: map<string, Stats>)
    requires n < |reader|
    ensures Flat(reader[..n + 1]) == Flat(reader[..n]) + reader[n]
    ensures var done, batch := Tag(Flat(reader[..n]), prefix, depth), Tag(reader[n], prefix, depth);
            var next := Tag(Flat(reader[..n + 1]), prefix, depth);
            FoldInto(start, next) == FoldInto(FoldInto(start, done), batch)
            && KeysOf(next) == KeysOf(done) + KeysOf(batch)
  {
    assert reader[..n + 1][..n] == reader[..n];
    TagConcat(Flat(reader[..n]), reader[n], prefix, depth);
    FoldConcat(start, Tag(Flat(reader[..n]), prefix, depth), Tag(reader[n], prefix, depth));
    KeysConcat(Tag(Flat(reader[..n]), prefix, depth), Tag(reader[n], prefix, depth));
  }

  lemma WiderThan(reader: seq<Batch>, n: nat, prefix: string, depth: nat, start: set<string>, max: nat)
    requires n < |reader|
    requires !Fits(max, start + KeysOf(Tag(Flat(reader[..n + 1]), prefix, depth)))
    ensures !Fits(max, start + KeysOf(Tag(Flat(reader), prefix, depth)))
  {
    hide KeysOf, Tag, Flat;
    var a, b := Flat(reader[..n + 1]), Flat(reader[n + 1..]);
    FlatConcat(reader[..n + 1], reader[n + 1..]);
    assert reader[..n + 1] + reader[n + 1..] == reader;
    TagConcat(a, b, prefix, depth);
    KeysConcat(Tag(a, prefix, depth), Tag(b, prefix, depth));
    SubsetCard(start + KeysOf(Tag(a, prefix, depth)), start + KeysOf(Tag(Flat(reader), prefix, depth)));
  }
}
