/**
 What a directory listing of one snapshot is: a capped query, filters derived in memory
 or pushed down, the sort orders, and pages of a sorted listing.
 */
module ListingSpec {
  import opened Wrappers
  import opened Folding
  import opened RollupSpec

  datatype Entry = Entry(name: string, kind: string, size: Option<int>, mtime: Option<int>, atime: Option<int>,
                         owner: Option<string>, other: string)

  type Table = seq<Entry>

  datatype TypeFilter = AnyType | Files | Dirs | OtherTypes

  // A cached listing, without its memo of sorted variants.
  datatype Listing = Listing(table: Table, truncated: bool)

  // ---- filters --------------------------------------------------------------------

  predicate Contains(s: string, part: string) {
    part <= s || (s != "" && Contains(s[1..], part))
  }

  predicate TypeMatches(e: Entry, filter: TypeFilter) {
    match filter
    case AnyType => true
    case Files => e.kind == "FILE"
    case Dirs => e.kind == "DIR"
    case OtherTypes => e.kind != "FILE" && e.kind != "DIR"
  }

  predicate Matches(e: Entry, filter: TypeFilter, name: string) {
    TypeMatches(e, filter) && (name == "" || Contains(e.name, name))
  }

  function Select(rows: Table, filter: TypeFilter, name: string): (r: Table)
    ensures |r| <= |rows|
  {
    if rows == [] then [] else
    var rest, last := rows[..|rows| - 1], rows[|rows| - 1];
    Select(rest, filter, name) + if Matches(last, filter, name) then [last] else []
  }

  // ---- a listing of some rows under a cap ----------------------------------------------

  ghost predicate IsListing(l: Listing, rows: Table, cap: nat) {
    && (l.truncated <==> |rows| > cap)
    && (if l.truncated then |l.table| == cap && multiset(l.table) <= multiset(rows)
        else multiset(l.table) == multiset(rows))
  }

  ghost predicate DistinctNames(t: Table) {
    forall i, j :: 0 <= i < j < |t| ==> t[i].name != t[j].name
  }

  lemma {:induction false} SelectConcat(a: Table, b: Table, filter: TypeFilter, name: string)
    ensures Select(a + b, filter, name) == Select(a, filter, name) + Select(b, filter, name)
    decreases |b|
  {
    if b == [] {
      assert a + b == a;
    } else {
      SelectConcat(a, b[..|b| - 1], filter, name);
      assert (a + b)[..|a + b| - 1] == a + b[..|b| - 1];
    }
  }

  lemma SelectOne(x: Entry, filter: TypeFilter, name: string)
    ensures Select([x], filter, name) == if Matches(x, filter, name) then [x] else []
  {
    assert [x][..0] == [];
  }

  lemma {:induction false} SelectCounts(t: Table, filter: TypeFilter, name: string, e: Entry)
    ensures multiset(Select(t, filter, name))[e] == if Matches(e, filter, name) then multiset(t)[e] else 0
  {
    if t != [] {
      hide Matches, Select;
      var rest, last := t[..|t| - 1], t[|t| - 1];
      SelectCounts(rest, filter, name, e);
      SelectNext(t, filter, name, e);
      LastCounts(t, e);
    }
  }

  lemma SelectNext(t: Table, filter: TypeFilter, name: string, e: Entry)
    requires t != []
    ensures multiset(Select(t, filter, name))[e]
            == multiset(Select(t[..|t| - 1], filter, name))[e]
               + if e == t[|t| - 1] && Matches(e, filter, name) then 1 else 0
  {
    var more := if Matches(t[|t| - 1], filter, name) then [t[|t| - 1]] else [];
    assert Select(t, filter, name) == Select(t[..|t| - 1], filter, name) + more;
  }

  lemma LastCounts(t: Table, e: Entry)
    requires t != []
    ensures multiset(t)[e] == multiset(t[..|t| - 1])[e] + if e == t[|t| - 1] then 1 else 0
  {
    assert t == t[..|t| - 1] + [t[|t| - 1]];
  }

  // A part is contained in a text when it occurs somewhere in it.
  lemma {:induction false} ContainsMeans(s: string, part: string)
    ensures Contains(s, part) <==> exists i :: 0 <= i <= |s| && OccursAt(s, part, i)
  {
    if part <= s {
      assert OccursAt(s, part, 0) && s[0..] == s;
    } else if s != "" {
      ContainsMeans(s[1..], part);
      if i :| 0 <= i <= |s[1..]| && OccursAt(s[1..], part, i) {
        assert s[1..][i..] == s[i + 1..];
        assert OccursAt(s, part, i + 1);
      }
      if i :| 0 <= i <= |s| && OccursAt(s, part, i) {
        assert i > 0 && s[1..][i - 1..] == s[i..];
        assert OccursAt(s[1..], part, i - 1);
      }
    }
  }

  ghost predicate OccursAt(s: string, part: string, i: int) {
    0 <= i <= |s| && part <= s[i..]
  }

  // An entry passes a filter when it is of the type asked for and its name has the part asked
  // for somewhere; an empty part asks for nothing.
  ghost predicate Passes(e: Entry, filter: TypeFilter, part: string) {
    && (filter == Files ==> e.kind == "FILE") && (filter == Dirs ==> e.kind == "DIR")
    && (filter == OtherTypes ==> e.kind !in {"FILE", "DIR"})
    && (part != "" ==> exists i :: 0 <= i <= |e.name| && OccursAt(e.name, part, i))
  }

  // Filtering keeps each entry that passes, as often as it was there, and no other.
  lemma Selected(rows: Table, filter: TypeFilter, part: string, e: Entry)
    ensures multiset(Select(rows, filter, part))[e] == if Passes(e, filter, part) then multiset(rows)[e] else 0
  {
    hide Contains, OccursAt;
    SelectCounts(rows, filter, part, e);
    ContainsMeans(e.name, part);
  }

  lemma SelectPermutes(a: Table, b: Table, filter: TypeFilter, name: string)
    requires multiset(a) == multiset(b)
    ensures multiset(Select(a, filter, name)) == multiset(Select(b, filter, name))
  {
    forall e
      ensures multiset(Select(a, filter, name))[e] == multiset(Select(b, filter, name))[e]
    {
      SelectCounts(a, filter, name, e);
      SelectCounts(b, filter, name, e);
    }
  }

  // Filtering by type and then by name is filtering by both.
  lemma {:induction false} SelectTwice(rows: Table, filter: TypeFilter, name: string)
    ensures Select(Select(rows, filter, ""), AnyType, name) == Select(rows, filter, name)
  {
    if rows != [] {
      var rest, last := rows[..|rows| - 1], rows[|rows| - 1];
      SelectTwice(rest, filter, name);
      SelectConcat(Select(rest, filter, ""), if Matches(last, filter, "") then [last] else [], AnyType, name);
      SelectOne(last, AnyType, name);
    }
  }

  // Every entry is a directory, a file or something else.
  lemma {:induction false} TypesPartition(t: Table)
    ensures |Select(t, Dirs, "")| + |Select(t, Files, "")| + |Select(t, OtherTypes, "")| == |t|
  {
    if t != [] {
      TypesPartition(t[..|t| - 1]);
    }
  }

  // A filtered listing taken from the complete unfiltered one is what the query would say.
  lemma DerivedIsQueried(full: Listing, rows: Table, cap: nat, filter: TypeFilter, name: string)
    requires IsListing(full, rows, cap) && !full.truncated
    ensures IsListing(Listing(Select(full.table, filter, name), false), Select(rows, filter, name), cap)
  {
    SelectPermutes(full.table, rows, filter, name);
  }

  // Why a truncated listing is not used for this: matching rows may be missing from it.
  lemma TruncatedLosesRows(dir: Entry, file: Entry)
    requires dir.kind == "DIR" && file.kind == "FILE"
    ensures IsListing(Listing([dir], true), [dir, file], 1)
    ensures !IsListing(Listing(Select([dir], Files, ""), false), Select([dir, file], Files, ""), 1)
  {
    assert multiset([dir]) <= multiset([dir, file]);
    SelectConcat([dir], [file], Files, "");
    SelectOne(dir, Files, "");
    SelectOne(file, Files, "");
    assert [dir, file] == [dir] + [file];
    assert |multiset(Select([dir, file], Files, ""))| == 1;
  }

  // A listing has no more copies of a name than the directory.
  lemma ListingDistinct(l: Listing, rows: Table, cap: nat)
    requires IsListing(l, rows, cap) && DistinctNames(rows)
    ensures DistinctNames(l.table)
  {
    PartDistinct(l.table, rows);
  }

  lemma PartDistinct(part: Table, rows: Table)
    requires multiset(part) <= multiset(rows) && DistinctNames(rows)
    ensures DistinctNames(part)
  {
    forall i, j | 0 <= i < j < |part|
      ensures part[i].name != part[j].name
    {
      var e, f := part[i], part[j];
      Present(part, rows, e);
      Present(part, rows, f);
      if e == f {
        TwoCopies(part, i, j);
        OneCopy(rows, e);
      }
    }
  }

  lemma Present(part: Table, rows: Table, e: Entry)
    requires multiset(part) <= multiset(rows) && e in part
    ensures e in rows
  {
    assert e in multiset(part);
  }

  lemma TwoCopies(t: Table, i: nat, j: nat)
    requires i < j < |t| && t[i] == t[j]
    ensures multiset(t)[t[i]] >= 2
  {
    assert t == t[..i] + [t[i]] + t[i + 1..j] + [t[j]] + t[j + 1..];
  }

  lemma OneCopy(t: Table, e: Entry)
    requires DistinctNames(t) && e in t
    ensures multiset(t)[e] == 1
  {
    var i :| 0 <= i < |t| && t[i] == e;
    assert t == t[..i] + [e] + t[i + 1..];
    assert e !in t[..i] && e !in t[i + 1..];
  }
}
