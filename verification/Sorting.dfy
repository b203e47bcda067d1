/**
 Sort orders of a listing and its pages.  Nulls sort last whatever the direction, and
 directories sort before the rest wherever the leading key leaves a choice.
 */
module Sorting {
  import opened Sets
  import opened Wrappers
  import opened Folding
  import opened Paths
  import opened ListingSpec

  datatype Field = ByName | BySize | ByMtime | ByAtime | ByOwner

  datatype SortKey = SortKey(field: Field, descending: bool)

  datatype Value = Number(n: int) | Text(s: string) | Null

  // One column of a sort: its value and its direction.
  datatype Column = Column(value: Value, descending: bool)

  function Num(x: Option<int>): Value { if x.None? then Null else Number(x.value) }

  function Str(x: Option<string>): Value { if x.None? then Null else Text(x.value) }

  function IsFile(e: Entry): Column { Column(Number(if e.kind != "DIR" then 1 else 0), false) }

  function Columns(e: Entry, key: SortKey): seq<Column> {
    match key.field
    case ByName => [IsFile(e), Column(Text(e.name), key.descending)]
    case BySize => [Column(Num(e.size), key.descending), IsFile(e), Column(Text(e.name), false)]
    case ByMtime => [Column(Num(e.mtime), key.descending), IsFile(e), Column(Text(e.name), false)]
    case ByAtime => [Column(Num(e.atime), key.descending), IsFile(e), Column(Text(e.name), false)]
    case ByOwner => [Column(Str(e.owner), key.descending), IsFile(e), Column(Text(e.name), false)]
  }

  function CompareText(a: string, b: string): int {
    if a == "" then if b == "" then 0 else -1
    else if b == "" then 1
    else if a[0] != b[0] then if a[0] < b[0] then -1 else 1
    else CompareText(a[1..], b[1..])
  }

  function Compare(a: Value, b: Value): int {
    match (a, b)
    case (Number(x), Number(y)) => if x < y then -1 else if x == y then 0 else 1
    case (Text(x), Text(y)) => CompareText(x, y)
    case (Number(_), Text(_)) => -1
    case (Text(_), Number(_)) => 1
    case (Null, Null) => 0
    case (Null, _) => 1
    case (_, Null) => -1
  }

  // Nulls stay at the end in either direction.
  function CompareColumn(a: Column, b: Column): int {
    if a.descending && !a.value.Null? && !b.value.Null? then Compare(b.value, a.value)
    else Compare(a.value, b.value)
  }

  function CompareRows(a: seq<Column>, b: seq<Column>): int
    requires |a| == |b|
  {
    if a == [] then 0
    else if CompareColumn(a[0], b[0]) != 0 then CompareColumn(a[0], b[0])
    else CompareRows(a[1..], b[1..])
  }

  predicate Before(e: Entry, f: Entry, key: SortKey) {
    CompareRows(Columns(e, key), Columns(f, key)) < 0
  }

  // ---- the order on the fields of the entries ----------------------------------------

  // Dictionary order: a proper beginning comes first, else the first character that differs
  // decides.
  ghost predicate TextBefore(a: string, b: string) {
    exists n :: DifferAt(a, b, n)
  }

  ghost predicate DifferAt(a: string, b: string, n: int) {
    && 0 <= n <= |a| && n < |b| && a[..n] == b[..n]
    && (n < |a| ==> a[n] < b[n])
  }

  // No value after a null; values not decreasing, or not increasing when descending.
  ghost predicate NumbersInOrder(x: Option<int>, y: Option<int>, descending: bool) {
    && (x.None? ==> y.None?)
    && (x.Some? && y.Some? ==> if descending then y.value <= x.value else x.value <= y.value)
  }

  ghost predicate TextsInOrder(x: Option<string>, y: Option<string>, descending: bool) {
    && (x.None? ==> y.None?)
    && (x.Some? && y.Some? && x != y ==>
          if descending then TextBefore(y.value, x.value) else TextBefore(x.value, y.value))
  }

  // Directories before the rest, and within each of the two by name.
  ghost predicate DirsThenNames(e: Entry, f: Entry, descending: bool) {
    && (f.kind == "DIR" ==> e.kind == "DIR")
    && ((e.kind == "DIR" <==> f.kind == "DIR") ==>
          if descending then TextBefore(f.name, e.name) else TextBefore(e.name, f.name))
  }

  // What it is for one entry to be listed before another.
  ghost predicate InOrder(e: Entry, f: Entry, key: SortKey) {
    match key.field
    case ByName => DirsThenNames(e, f, key.descending)
    case BySize => NumbersInOrder(e.size, f.size, key.descending) && (e.size == f.size ==> DirsThenNames(e, f, false))
    case ByMtime =>
      NumbersInOrder(e.mtime, f.mtime, key.descending) && (e.mtime == f.mtime ==> DirsThenNames(e, f, false))
    case ByAtime =>
      NumbersInOrder(e.atime, f.atime, key.descending) && (e.atime == f.atime ==> DirsThenNames(e, f, false))
    case ByOwner =>
      TextsInOrder(e.owner, f.owner, key.descending) && (e.owner == f.owner ==> DirsThenNames(e, f, false))
  }

  ghost predicate Sorted(t: Table, key: SortKey) {
    forall i, j :: 0 <= i < j < |t| ==> InOrder(t[i], t[j], key)
  }

  ghost predicate Ranked(t: Table, key: SortKey) {
    forall i, j :: 0 <= i < j < |t| ==> Before(t[i], t[j], key)
  }

  ghost predicate IsSort(out: Table, table: Table, key: SortKey) {
    multiset(out) == multiset(table) && Sorted(out, key)
  }

  // ---- a strict total order -----------------------------------------------------------

  lemma {:induction false} TextOrder(a: string, b: string)
    ensures CompareText(b, a) == -CompareText(a, b)
    ensures CompareText(a, b) == 0 <==> a == b
  {
    if a != "" && b != "" {
      TextOrder(a[1..], b[1..]);
      assert a == [a[0]] + a[1..] && b == [b[0]] + b[1..];
    }
  }

  lemma {:induction false} TextTrans(a: string, b: string, c: string)
    requires CompareText(a, b) < 0 && CompareText(b, c) < 0
    ensures CompareText(a, c) < 0
  {
    if a != "" && a[0] == b[0] == c[0] {
      TextTrans(a[1..], b[1..], c[1..]);
    }
  }

  lemma ColumnOrder(a: Column, b: Column)
    requires a.descending == b.descending
    ensures CompareColumn(b, a) == -CompareColumn(a, b)
    ensures CompareColumn(a, b) == 0 <==> a == b
  {
    if a.value.Text? && b.value.Text? {
      TextOrder(a.value.s, b.value.s);
      TextOrder(b.value.s, a.value.s);
    }
  }

  lemma ColumnTrans(a: Column, b: Column, c: Column)
    requires a.descending == b.descending == c.descending
    requires CompareColumn(a, b) < 0 && CompareColumn(b, c) < 0
    ensures CompareColumn(a, c) < 0
  {
    if a.value.Text? && b.value.Text? && c.value.Text? {
      if a.descending {
        TextTrans(c.value.s, b.value.s, a.value.s);
      } else {
        TextTrans(a.value.s, b.value.s, c.value.s);
      }
    }
  }

  ghost predicate Alike(a: seq<Column>, b: seq<Column>) {
    |a| == |b| && forall i :: 0 <= i < |a| ==> a[i].descending == b[i].descending
  }

  lemma {:induction false} RowOrder(a: seq<Column>, b: seq<Column>)
    requires Alike(a, b)
    ensures CompareRows(b, a) == -CompareRows(a, b)
    ensures CompareRows(a, b) == 0 <==> a == b
  {
    if a != [] {
      ColumnOrder(a[0], b[0]);
      RowOrder(a[1..], b[1..]);
      assert a == [a[0]] + a[1..] && b == [b[0]] + b[1..];
    }
  }

  lemma {:induction false} RowTrans(a: seq<Column>, b: seq<Column>, c: seq<Column>)
    requires Alike(a, b) && Alike(b, c)
    requires CompareRows(a, b) < 0 && CompareRows(b, c) < 0
    ensures CompareRows(a, c) < 0
  {
    ColumnOrder(a[0], b[0]);
    ColumnOrder(b[0], c[0]);
    if a[0] == b[0] == c[0] {
      RowTrans(a[1..], b[1..], c[1..]);
    } else if a[0] != b[0] && b[0] != c[0] {
      ColumnTrans(a[0], b[0], c[0]);
    }
  }

  lemma BeforeIsOrder(e: Entry, f: Entry, g: Entry, key: SortKey)
    ensures !Before(e, e, key)
    ensures Before(e, f, key) && Before(f, g, key) ==> Before(e, g, key)
    ensures e.name != f.name ==> (Before(e, f, key) <==> !Before(f, e, key))
  {
    hide CompareRows;
    var a, b, c := Columns(e, key), Columns(f, key), Columns(g, key);
    RowOrder(a, a);
    RowOrder(a, b);
    if e.name != f.name {
      assert a[|a| - 1] != b[|b| - 1];
    }
    if Before(e, f, key) && Before(f, g, key) {
      RowTrans(a, b, c);
    }
  }

  // ---- the comparison of columns is the order on the fields -----------------------------------

  lemma {:induction false} CompareTextMeans(a: string, b: string)
    ensures CompareText(a, b) < 0 <==> TextBefore(a, b)
    ensures CompareText(a, b) > 0 <==> TextBefore(b, a)
  {
    if a != "" && b != "" && a[0] == b[0] {
      CompareTextMeans(a[1..], b[1..]);
      SameStart(a, b);
      SameStart(b, a);
    } else {
      if CompareText(a, b) < 0 {
        assert DifferAt(a, b, 0);
      }
      if CompareText(a, b) > 0 {
        assert DifferAt(b, a, 0);
      }
      OtherStart(a, b);
      OtherStart(b, a);
    }
  }

  lemma SameStart(a: string, b: string)
    requires a != "" && b != "" && a[0] == b[0]
    ensures TextBefore(a[1..], b[1..]) <==> TextBefore(a, b)
  {
    if n :| DifferAt(a, b, n) {
      assert a[1..][..n - 1] == a[..n][1..] && b[1..][..n - 1] == b[..n][1..];
      assert DifferAt(a[1..], b[1..], n - 1);
    }
    if n :| DifferAt(a[1..], b[1..], n) {
      assert a[..n + 1] == [a[0]] + a[1..][..n] && b[..n + 1] == [b[0]] + b[1..][..n];
      assert DifferAt(a, b, n + 1);
    }
  }

  lemma OtherStart(a: string, b: string)
    requires a == "" || b == "" || a[0] != b[0]
    ensures TextBefore(a, b) ==> b != "" && (a != "" ==> a[0] < b[0])
  {
    if n :| DifferAt(a, b, n) {
      if n > 0 {
        assert a[..n][0] == b[..n][0];
      }
    }
  }

  lemma NumbersMean(x: Option<int>, y: Option<int>, descending: bool)
    ensures var c := CompareColumn(Column(Num(x), descending), Column(Num(y), descending));
            (NumbersInOrder(x, y, descending) <==> c <= 0) && (c == 0 <==> x == y)
  {
  }

  lemma TextsMean(x: Option<string>, y: Option<string>, descending: bool)
    ensures var c := CompareColumn(Column(Str(x), descending), Column(Str(y), descending));
            (TextsInOrder(x, y, descending) <==> c <= 0) && (c == 0 <==> x == y)
  {
    hide CompareText, TextBefore;
    if x.Some? && y.Some? {
      CompareTextMeans(x.value, y.value);
      TextOrder(x.value, y.value);
      TextOrder(y.value, x.value);
    }
  }

  // The last two columns of every sort.
  lemma DirsThenNamesMean(e: Entry, f: Entry, descending: bool)
    ensures CompareRows([IsFile(e), Column(Text(e.name), descending)],
                        [IsFile(f), Column(Text(f.name), descending)]) < 0
            <==> DirsThenNames(e, f, descending)
  {
    hide CompareText, TextBefore, CompareRows;
    var a, b := [IsFile(e), Column(Text(e.name), descending)], [IsFile(f), Column(Text(f.name), descending)];
    FirstDecides(a, b);
    FirstDecides(a[1..], b[1..]);
    NothingLeft(a[1..][1..], b[1..][1..]);
    CompareTextMeans(e.name, f.name);
    CompareTextMeans(f.name, e.name);
    TextOrder(e.name, f.name);
  }

  lemma FirstDecides(a: seq<Column>, b: seq<Column>)
    requires |a| == |b| > 0
    ensures CompareRows(a, b) == if CompareColumn(a[0], b[0]) != 0 then CompareColumn(a[0], b[0])
                                 else CompareRows(a[1..], b[1..])
  {
  }

  lemma NothingLeft(a: seq<Column>, b: seq<Column>)
    requires a == [] && b == []
    ensures CompareRows(a, b) == 0
  {
  }

  // A leading column before them.
  lemma LeadMeans(a: Column, b: Column, e: Entry, f: Entry)
    ensures CompareRows([a, IsFile(e), Column(Text(e.name), false)], [b, IsFile(f), Column(Text(f.name), false)]) < 0
            <==> CompareColumn(a, b) < 0 || (CompareColumn(a, b) == 0 && DirsThenNames(e, f, false))
  {
    hide CompareColumn, CompareRows, DirsThenNames, IsFile;
    var x, y := [a, IsFile(e), Column(Text(e.name), false)], [b, IsFile(f), Column(Text(f.name), false)];
    FirstDecides(x, y);
    assert x[1..] == [IsFile(e), Column(Text(e.name), false)] && y[1..] == [IsFile(f), Column(Text(f.name), false)];
    DirsThenNamesMean(e, f, false);
  }

  lemma BeforeMeans(e: Entry, f: Entry, key: SortKey)
    ensures Before(e, f, key) <==> InOrder(e, f, key)
  {
    hide CompareColumn, CompareRows, DirsThenNames, IsFile, NumbersInOrder, TextsInOrder;
    match key.field
    case ByName => DirsThenNamesMean(e, f, key.descending);
    case BySize => NumberLeads(e.size, f.size, e, f, key.descending);
    case ByMtime => NumberLeads(e.mtime, f.mtime, e, f, key.descending);
    case ByAtime => NumberLeads(e.atime, f.atime, e, f, key.descending);
    case ByOwner =>
      TextsMean(e.owner, f.owner, key.descending);
      LeadMeans(Column(Str(e.owner), key.descending), Column(Str(f.owner), key.descending), e, f);
  }

  lemma NumberLeads(x: Option<int>, y: Option<int>, e: Entry, f: Entry, descending: bool)
    ensures CompareRows([Column(Num(x), descending), IsFile(e), Column(Text(e.name), false)],
                        [Column(Num(y), descending), IsFile(f), Column(Text(f.name), false)]) < 0
            <==> NumbersInOrder(x, y, descending) && (x == y ==> DirsThenNames(e, f, false))
  {
    hide CompareColumn, CompareRows, DirsThenNames, IsFile, NumbersInOrder;
    NumbersMean(x, y, descending);
    LeadMeans(Column(Num(x), descending), Column(Num(y), descending), e, f);
  }

  // On entries with distinct names every sort order is strict and total.
  lemma StrictTotalOrder(e: Entry, f: Entry, g: Entry, key: SortKey)
    ensures !InOrder(e, e, key)
    ensures InOrder(e, f, key) && InOrder(f, g, key) ==> InOrder(e, g, key)
    ensures e.name != f.name ==> (InOrder(e, f, key) <==> !InOrder(f, e, key))
  {
    hide Before, InOrder;
    BeforeIsOrder(e, f, g, key);
    BeforeMeans(e, e, key);
    BeforeMeans(e, f, key);
    BeforeMeans(f, e, key);
    BeforeMeans(f, g, key);
    BeforeMeans(e, g, key);
  }

  lemma RankedIsSorted(t: Table, key: SortKey)
    ensures Ranked(t, key) <==> Sorted(t, key)
  {
    hide Before, InOrder;
    forall i, j | 0 <= i < j < |t|
      ensures Before(t[i], t[j], key) <==> InOrder(t[i], t[j], key)
    {
      BeforeMeans(t[i], t[j], key);
    }
  }

  // ---- a table has one sort ---------------------------------------------------------------

  lemma SortIsUnique(a: Table, b: Table, key: SortKey)
    requires multiset(a) == multiset(b) && Sorted(a, key) && Sorted(b, key)
    ensures a == b
  {
    RankedIsSorted(a, key);
    RankedIsSorted(b, key);
    RankIsUnique(a, b, key);
  }

  lemma {:induction false} RankIsUnique(a: Table, b: Table, key: SortKey)
    requires multiset(a) == multiset(b) && Ranked(a, key) && Ranked(b, key)
    ensures a == b
  {
    hide Before;
    if a == [] {
      SameEmpty(a, b);
    } else {
      assert |multiset(a)| == |multiset(b)|;
      FirstIsLeast(a, b, key);
      DropFirst(a, b);
      RankIsUnique(a[1..], b[1..], key);
      assert a == [a[0]] + a[1..] && b == [b[0]] + b[1..];
    }
  }

  lemma DropFirst(a: Table, b: Table)
    requires a != [] && b != [] && a[0] == b[0] && multiset(a) == multiset(b)
    ensures multiset(a[1..]) == multiset(b[1..])
  {
    assert a == [a[0]] + a[1..] && b == [b[0]] + b[1..];
    assert multiset(a[1..]) == multiset(a) - multiset{a[0]};
    assert multiset(b[1..]) == multiset(b) - multiset{b[0]};
  }

  lemma FirstIsLeast(a: Table, b: Table, key: SortKey)
    requires multiset(a) == multiset(b) && Ranked(a, key) && Ranked(b, key) && a != [] && b != []
    ensures a[0] == b[0]
  {
    assert a[0] in multiset(b) && b[0] in multiset(a);
    var i :| 0 <= i < |b| && b[i] == a[0];
    var j :| 0 <= j < |a| && a[j] == b[0];
    BeforeIsOrder(a[0], b[0], a[0], key);
  }

  // table.sort_by(keys)
  method SortBy(table: Table, key: SortKey) returns (out: Table)
    requires DistinctNames(table)
    ensures IsSort(out, table, key)
  {
    hide Before, InOrder;
    out := [];
    for n := 0 to |table|
      invariant multiset(out) == multiset(table[..n]) && Ranked(out, key)
    {
      var e := table[n];
      NewNames(table, n, out);
      var i := 0;
      while i < |out| && Before(out[i], e, key)
        invariant 0 <= i <= |out|
        invariant forall j :: 0 <= j < i ==> Before(out[j], e, key)
      {
        i := i + 1;
      }
      InsertedRow(out, i, e, key);
      InsertedCounts(out, i, e);
      assert table[..n + 1] == table[..n] + [e];
      out := out[..i] + [e] + out[i..];
    }
    assert table[..|table|] == table;
    RankedIsSorted(out, key);
  }

  lemma NewNames(table: Table, n: nat, out: Table)
    requires DistinctNames(table) && n < |table| && multiset(out) == multiset(table[..n])
    ensures forall e <- out :: e.name != table[n].name
  {
    forall e <- out
      ensures e.name != table[n].name
    {
      assert e in multiset(table[..n]);
      var i :| 0 <= i < n && table[..n][i] == e;
      assert table[i] == e;
    }
  }

  lemma InsertedRow(out: Table, i: nat, e: Entry, key: SortKey)
    requires Ranked(out, key) && i <= |out|
    requires forall f <- out :: f.name != e.name
    requires forall j :: 0 <= j < i ==> Before(out[j], e, key)
    requires i < |out| ==> !Before(out[i], e, key)
    ensures Ranked(out[..i] + [e] + out[i..], key)
  {
    hide Before;
    var r := out[..i] + [e] + out[i..];
    forall j | i <= j < |out|
      ensures Before(e, out[j], key)
    {
      BeforeIsOrder(e, out[i], out[j], key);
    }
    forall a, b | 0 <= a < b < |r|
      ensures Before(r[a], r[b], key)
    {
      if b < i {
        assert r[a] == out[a] && r[b] == out[b];
      } else if b == i {
        assert r[a] == out[a] && r[b] == e;
      } else if a < i {
        assert r[a] == out[a] && r[b] == out[b - 1];
      } else if a == i {
        assert r[a] == e && r[b] == out[b - 1];
      } else {
        assert r[a] == out[a - 1] && r[b] == out[b - 1];
      }
    }
  }

  lemma InsertedCounts(out: Table, i: nat, e: Entry)
    requires i <= |out|
    ensures multiset(out[..i] + [e] + out[i..]) == multiset(out) + multiset{e}
  {
    assert out == out[..i] + out[i..];
  }

  // ---- pages ------------------------------------------------------------------------------

  function PageCount(total: nat, size: nat): (pages: nat)
    requires size > 0
    ensures pages >= 1
  {
    var n := (total + size - 1) / size;
    if n >= 1 then n else 1
  }

  // table.slice(lo, hi - lo)
  function Slice(t: Table, lo: nat, hi: nat): Table
    requires lo <= hi
  {
    if lo >= |t| then [] else if hi >= |t| then t[lo..] else t[lo..hi]
  }

  function Window(t: Table, page: nat, size: nat): Table
    requires page >= 1
  {
    Slice(t, Capacity(page - 1, size), Capacity(page - 1, size) + size)
  }

  // The rows of a page: those from (page - 1) * size on, as many as there are up to the size.
  ghost predicate IsPage(rows: Table, t: Table, page: nat, size: nat)
    requires page >= 1
  {
    var start := (page - 1) * size;
    && |rows| == (if |t| <= start then 0 else if |t| - start <= size then |t| - start else size)
    && forall i :: 0 <= i < |rows| ==> start + i < |t| && rows[i] == t[start + i]
  }

  lemma WindowRows(t: Table, page: nat, size: nat)
    requires page >= 1
    ensures IsPage(Window(t, page, size), t, page, size)
  {
  }

  ghost function PagesUpTo(t: Table, n: nat, size: nat): seq<Table> {
    if n == 0 then [] else PagesUpTo(t, n - 1, size) + [Window(t, n, size)]
  }

  lemma TakeMore(t: Table, lo: nat, hi: nat)
    requires lo <= hi
    ensures Take(t, lo) + Slice(t, lo, hi) == Take(t, hi)
  {
  }

  // How many rows the first n pages can hold.
  function Capacity(n: nat, size: nat): nat { n * size }

  lemma CapacityNext(n: nat, size: nat)
    requires n > 0
    ensures Capacity(n, size) == Capacity(n - 1, size) + size && Capacity(0, size) == 0
  {
  }

  lemma {:induction false} FirstPages(t: Table, n: nat, size: nat)
    ensures Flat(PagesUpTo(t, n, size)) == Take(t, Capacity(n, size))
  {
    hide Take, Slice, Flat, Capacity;
    if n == 0 {
      NoPages(t, size);
    } else {
      FirstPages(t, n - 1, size);
      CapacityNext(n, size);
      FlatSnoc(PagesUpTo(t, n - 1, size), Window(t, n, size));
      TakeMore(t, Capacity(n - 1, size), Capacity(n, size));
    }
  }

  lemma NoPages(t: Table, size: nat)
    ensures Flat<Entry>([]) == [] == Take(t, Capacity(0, size))
  {
    CapacityNext(1, size);
  }

  lemma EnoughPages(total: nat, size: nat)
    requires size > 0
    ensures Capacity(PageCount(total, size), size) >= total
    ensures PageCount(total, size) > 1 ==> Capacity(PageCount(total, size) - 1, size) < total
  {
  }

  // Pages 1 to the last put together are the listing: every row once, in order.
  lemma PagesCover(t: Table, size: nat)
    requires size > 0
    ensures Flat(PagesUpTo(t, PageCount(|t|, size), size)) == t
  {
    hide PageCount, Capacity, Flat;
    FirstPages(t, PageCount(|t|, size), size);
    EnoughPages(|t|, size);
  }

  function ClampPage(page: int, pages: nat): (p: nat)
    requires pages >= 1
    ensures 1 <= p <= pages
    ensures p < page ==> p == pages
    ensures p > page ==> p == 1
  {
    var low := if page < pages then page else pages;
    if low >= 1 then low else 1
  }

  function ClampPageSize(requested: int, pageMax: nat): (size: nat)
    ensures size >= 20 && (pageMax >= 20 ==> size <= pageMax)
    ensures size < requested && pageMax >= 20 ==> size == pageMax
    ensures size > requested || pageMax < 20 ==> size == 20
  {
    var low := if requested < pageMax then requested else pageMax;
    if low >= 20 then low else 20
  }
}
