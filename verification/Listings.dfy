/**
 The listing service: the capped query, filters pushed down, applied per batch or derived
 from a cached listing, the memo of sorted variants, pages, and the refresh that the
 cache warmer asks for.
 */
module Listings {
  import opened Wrappers
  import opened Paths
  import opened Folding
  import opened RollupSpec
  import opened ListingSpec
  import opened Sorting
  import opened Cache
  import T = TimedCache

  const MAX_SORT_VARIANTS := 3

  // ---- the backend query ----------------------------------------------------------------

  // What one query delivers: batches, and whether it then raises.
  datatype Feed = Feed(batches: seq<Table>, fails: bool)

  // Any order and any batching of the rows asked for, or some of them before a failure.
  ghost predicate Yields(feed: Feed, rows: Table) {
    if feed.fails then multiset(Flat(feed.batches)) <= multiset(rows)
    else multiset(Flat(feed.batches)) == multiset(rows)
  }

  // What the backend has to offer for one directory: the query with the name filter in its
  // predicate, unless the SDK refuses that, and the query without.
  datatype Offer = Offer(pushdown: bool, pushed: Feed, plain: Feed)

  ghost predicate Serves(offer: Offer, rows: Table, filter: TypeFilter, name: string) {
    Yields(offer.pushed, Select(rows, filter, name)) && Yields(offer.plain, Select(rows, filter, ""))
  }

  // Batches that are empty, or left empty by a filter applied here, are not passed on.
  method Filtered(feed: Feed, name: string) returns (out: Feed)
    ensures out.fails == feed.fails && Flat(out.batches) == Select(Flat(feed.batches), AnyType, name)
    ensures forall b <- out.batches :: b != []
  {
    hide Select, Flat, Contains;
    var batches: seq<Table> := [];
    FilteredStart(feed, name);
    for n := 0 to |feed.batches|
      invariant Flat(batches) == Select(Flat(feed.batches[..n]), AnyType, name)
      invariant forall b <- batches :: b != []
    {
      var batch := Select(feed.batches[n], AnyType, name);
      assert feed.batches[..n + 1] == feed.batches[..n] + [feed.batches[n]];
      FlatSnoc(feed.batches[..n], feed.batches[n]);
      SelectConcat(Flat(feed.batches[..n]), feed.batches[n], AnyType, name);
      if batch != [] {
        FlatSnoc(batches, batch);
        batches := batches + [batch];
      } else {
        assert Flat(batches) + batch == Flat(batches);
      }
    }
    assert feed.batches[..|feed.batches|] == feed.batches;
    out := Feed(batches, feed.fails);
  }

  lemma FilteredStart(feed: Feed, name: string)
    ensures Flat<Entry>([]) == Select(Flat(feed.batches[..0]), AnyType, name)
  {
  }

  // The name filter goes into the predicate when the SDK supports it and is applied to each
  // batch otherwise; the choice is made before any row is passed on.
  method ListDir(offer: Offer, ghost rows: Table, ghost filter: TypeFilter, name: string) returns (feed: Feed)
    requires Serves(offer, rows, filter, name)
    ensures Yields(feed, Select(rows, filter, name))
    ensures feed.fails == if name != "" && offer.pushdown then offer.pushed.fails else offer.plain.fails
    ensures forall b <- feed.batches :: b != []
  {
    hide Select, Flat, Contains;
    if name != "" && offer.pushdown {
      feed := Filtered(offer.pushed, "");
      SelectAll(Flat(offer.pushed.batches));
    } else {
      feed := Filtered(offer.plain, name);
      SelectTwice(rows, filter, name);
      FilterYields(Flat(offer.plain.batches), Select(rows, filter, ""), name);
    }
  }

  lemma {:induction false} SelectAll(t: Table)
    ensures Select(t, AnyType, "") == t
  {
    if t != [] {
      SelectAll(t[..|t| - 1]);
    }
  }

  lemma FilterYields(got: Table, rows: Table, name: string)
    ensures multiset(got) <= multiset(rows) ==>
      multiset(Select(got, AnyType, name)) <= multiset(Select(rows, AnyType, name))
    ensures multiset(got) == multiset(rows) ==>
      multiset(Select(got, AnyType, name)) == multiset(Select(rows, AnyType, name))
  {
    forall e
      ensures multiset(got)[e] <= multiset(rows)[e] ==>
        multiset(Select(got, AnyType, name))[e] <= multiset(Select(rows, AnyType, name))[e]
      ensures multiset(got)[e] == multiset(rows)[e] ==>
        multiset(Select(got, AnyType, name))[e] == multiset(Select(rows, AnyType, name))[e]
    {
      SelectCounts(got, AnyType, name, e);
      SelectCounts(rows, AnyType, name, e);
    }
  }

  // Read batches up to the cap; a listing is truncated only when a row beyond it was seen.
  method QueryListing(feed: Feed, ghost rows: Table, cap: nat) returns (r: Result<Listing, string>)
    requires Yields(feed, rows)
    ensures r.Success? ==> IsListing(r.value, rows, cap)
    ensures r.Success? ==>
      && (r.value.truncated <==> |rows| > cap)
      && (if r.value.truncated then |r.value.table| == cap && multiset(r.value.table) <= multiset(rows)
          else multiset(r.value.table) == multiset(rows))
    ensures r.Failure? ==> feed.fails
    ensures feed.fails && |Flat(feed.batches)| <= cap ==> r.Failure?
  {
    hide Flat;
    var table: Table := [];
    assert Flat<Entry>(feed.batches[..0]) == [] by { EmptyFlat<Entry>(feed.batches); }
    for n := 0 to |feed.batches|
      invariant table == Flat(feed.batches[..n]) && |table| <= cap
    {
      var batch := feed.batches[n];
      FlatPrefix(feed.batches, n);
      if |table| + |batch| > cap {
        table := table + batch[..cap - |table|];
        CutIsListing(feed, rows, n, table, cap);
        return Success(Listing(table, true));
      }
      table := table + batch;
    }
    assert feed.batches[..|feed.batches|] == feed.batches;
    if feed.fails {
      return Failure("query failed");
    }
    assert |multiset(table)| == |multiset(rows)|;
    r := Success(Listing(table, false));
  }

  lemma EmptyFlat<T>(batches: seq<seq<T>>)
    ensures Flat(batches[..0]) == []
  {
  }

  lemma FlatPrefix<T>(batches: seq<seq<T>>, n: nat)
    requires n < |batches|
    ensures Flat(batches[..n + 1]) == Flat(batches[..n]) + batches[n]
  {
    hide Flat;
    FlatSnoc(batches[..n], batches[n]);
    assert batches[..n + 1] == batches[..n] + [batches[n]];
  }

  lemma FlatPart<T>(batches: seq<seq<T>>, n: nat)
    requires n <= |batches|
    ensures Flat(batches[..n]) <= Flat(batches)
  {
    hide Flat;
    FlatConcat(batches[..n], batches[n..]);
    assert batches == batches[..n] + batches[n..];
  }

  lemma CutIsListing(feed: Feed, rows: Table, n: nat, table: Table, cap: nat)
    requires Yields(feed, rows) && n < |feed.batches|
    requires table <= Flat(feed.batches[..n + 1]) && |table| == cap < |Flat(feed.batches[..n + 1])|
    ensures IsListing(Listing(table, true), rows, cap)
    ensures |Flat(feed.batches)| > cap
  {
    hide Flat;
    FlatPart(feed.batches, n + 1);
    var seen, all := Flat(feed.batches[..n + 1]), Flat(feed.batches);
    assert all == table + all[|table|..];
    assert multiset(table) <= multiset(all) <= multiset(rows);
    PartSize(all, rows);
  }

  lemma PartSize(part: Table, rows: Table)
    requires multiset(part) <= multiset(rows)
    ensures |part| <= |rows|
  {
    assert multiset(rows) == multiset(part) + (multiset(rows) - multiset(part));
    assert |multiset(part)| <= |multiset(rows)|;
  }

  // ---- a cached listing and its sorted variants --------------------------------------------

  class ListingEntry {
    const listing: Listing
    var sorted: seq<(SortKey, Table)>

    ghost predicate Valid()
      reads this
    {
      && DistinctNames(listing.table)
      && |sorted| <= MAX_SORT_VARIANTS
      && (forall i, j :: 0 <= i < j < |sorted| ==> sorted[i].0 != sorted[j].0)
      && forall v <- sorted :: IsSort(v.1, listing.table, v.0)
    }

    constructor (listing: Listing)
      requires DistinctNames(listing.table)
      ensures Valid() && this.listing == listing && sorted == []
    {
      this.listing, sorted := listing, [];
    }

    // The table in one sort order; the oldest variant makes room for a new one.
    method SortedTable(key: SortKey) returns (out: Table)
      requires Valid()
      modifies this
      ensures Valid() && IsSort(out, listing.table, key) && (key, out) in sorted
      ensures |sorted| <= 3
      ensures sorted == old(sorted) || sorted == old(sorted) + [(key, out)]
              || (|old(sorted)| == MAX_SORT_VARIANTS && sorted == old(sorted)[1..] + [(key, out)])
    {
      hide IsSort;
      for n := 0 to |sorted|
        invariant sorted == old(sorted)
        invariant forall v <- sorted[..n] :: v.0 != key
      {
        if sorted[n].0 == key {
          assert sorted[n] == (key, sorted[n].1);
          return sorted[n].1;
        }
      }
      assert sorted[..|sorted|] == sorted;
      out := SortBy(listing.table, key);
      sorted := sorted + [(key, out)];
      if |sorted| > MAX_SORT_VARIANTS {
        sorted := sorted[1..];
      }
      assert sorted[|sorted| - 1] == (key, out);
    }
  }

  // ---- the service ------------------------------------------------------------------------------

  type Catalog = map<(Epoch, string), Table>

  function Rows(catalog: Catalog, epoch: Epoch, path: string): Table {
    if (epoch, path) in catalog then catalog[(epoch, path)] else []
  }

  // Every directory of the catalog lists each name once.
  ghost predicate Sane(catalog: Catalog) {
    forall k <- catalog :: DistinctNames(catalog[k])
  }

  datatype Key = Key(epoch: Epoch, path: string, filter: TypeFilter, name: string)
  {
    predicate Filtered() { filter != AnyType || name != "" }
    function Whole(): Key { Key(epoch, path, AnyType, "") }
  }

  // A listing is what a direct capped query of that snapshot says.
  ghost predicate Names(catalog: Catalog, cap: nat, key: Key, l: Listing) {
    IsListing(l, Select(Rows(catalog, key.epoch, key.path), key.filter, key.name), cap)
  }

  lemma NamesDistinct(catalog: Catalog, cap: nat, key: Key, l: Listing)
    requires Sane(catalog) && Names(catalog, cap, key, l)
    ensures DistinctNames(l.table)
  {
    var rows := Rows(catalog, key.epoch, key.path);
    forall e
      ensures multiset(Select(rows, key.filter, key.name))[e] <= multiset(rows)[e]
    {
      SelectCounts(rows, key.filter, key.name, e);
    }
    PartDistinct(Select(rows, key.filter, key.name), rows);
    ListingDistinct(l, Select(rows, key.filter, key.name), cap);
  }

  lemma DerivedNames(catalog: Catalog, cap: nat, key: Key, full: Listing)
    requires Names(catalog, cap, key.Whole(), full) && !full.truncated
    ensures Names(catalog, cap, key, Listing(Select(full.table, key.filter, key.name), false))
  {
    var rows := Rows(catalog, key.epoch, key.path);
    SelectAll(rows);
    DerivedIsQueried(full, rows, cap, key.filter, key.name);
  }

  // Two complete listings of the same rows, however obtained, sort to the same table, so
  // pages stay consistent when an entry is evicted and queried again.
  lemma SamePages(catalog: Catalog, cap: nat, key: Key, a: Listing, b: Listing, order: SortKey, s: Table, t: Table)
    requires Names(catalog, cap, key, a) && Names(catalog, cap, key, b) && !a.truncated
    requires IsSort(s, a.table, order) && IsSort(t, b.table, order)
    ensures s == t
  {
    SortIsUnique(s, t, order);
  }

  datatype Listed =
    | Found(entry: ListingEntry, cached: bool)
    | Joined(flight: Flight<ListingEntry>)
    | Failed(message: string)
  {
    // This caller computed the listing itself.
    predicate Led() { Failed? || (Found? && !cached) }
  }

  datatype Page = Page(rows: Table, total: nat, dirs: nat, files: nat, others: nat,
                       page: nat, size: nat, pages: nat, truncated: bool)

  class ListingService {
    const cache: TTLCache<Key, ListingEntry>
    const cap: nat
    const pageDefault: nat
    const pageMax: nat
    ghost const catalog: Catalog
    ghost var entries: set<ListingEntry>

    ghost predicate Valid()
      reads this, cache, entries
    {
      && cap > 0 && 20 <= pageDefault <= pageMax && Sane(catalog)
      && cache.Valid() && Coherent(cache.log)
      && forall e <- entries :: e.Valid()
    }

    // Whatever was ever cached under a key is the listing that key names.
    ghost predicate Coherent(log: seq<T.Op<Key, ListingEntry>>)
      reads `entries
    {
      forall op <- log :: op.Put? ==> op.value in entries && Names(catalog, cap, op.key, op.value.listing)
    }

    constructor (cache: TTLCache<Key, ListingEntry>, cap: nat, pageDefault: nat, pageMax: nat, ghost catalog: Catalog)
      requires cache.Valid() && cache.log == [] && cap > 0 && 20 <= pageDefault <= pageMax && Sane(catalog)
      ensures Valid() && this.cache == cache && this.catalog == catalog && entries == {}
    {
      this.cache, this.cap, this.pageDefault, this.pageMax := cache, cap, pageDefault, pageMax;
      this.catalog, entries := catalog, {};
    }

    lemma CoherentSnoc(log: seq<T.Op<Key, ListingEntry>>, op: T.Op<Key, ListingEntry>)
      requires Coherent(log)
      requires op.Put? ==> op.value in entries && Names(catalog, cap, op.key, op.value.listing)
      ensures Coherent(log + [op])
    {
    }

    // A new entry for a listing that the key names.
    method Register(key: Key, l: Listing) returns (entry: ListingEntry)
      requires Valid() && Names(catalog, cap, key, l)
      modifies `entries
      ensures Valid() && fresh(entry) && entry.listing == l && entry.Valid()
      ensures entries == old(entries) + {entry}
    {
      hide Names, IsListing, DistinctNames, IsSort;
      NamesDistinct(catalog, cap, key, l);
      entry := new ListingEntry(l);
      entries := entries + {entry};
    }

    // Run one query, or filter the unfiltered listing when that is cached and complete.
    method Compute(key: Key, offer: Offer, now: real) returns (r: Result<Listing, string>)
      requires Valid() && Serves(offer, Rows(catalog, key.epoch, key.path), key.filter, key.name)
      modifies cache`d, cache`bytes, cache`log
      ensures Valid()
      ensures r.Success? ==> Names(catalog, cap, key, r.value)
      ensures Derives(old(cache.d), key, now) ==> r == Success(DerivedFrom(old(cache.d), key, now))
      ensures key.filter != AnyType || key.name != "" ==>
        match Seen(old(cache.d), Key(key.epoch, key.path, AnyType, ""), now)
        case None => true
        case Some(full) => !full.listing.truncated ==>
          r == Success(Listing(Select(full.listing.table, key.filter, key.name), false))
      ensures r.Failure? ==> offer.plain.fails || offer.pushed.fails
      ensures cache.log == old(cache.log) + LookOps(key, now)
    {
      hide IsListing, DistinctNames, IsSort, Select, Yields, T.Latest;
      ghost var rows := Rows(catalog, key.epoch, key.path);
      if key.Filtered() {
        ghost var before := cache.log;
        var full := cache.Get(key.Whole(), now);
        CoherentSnoc(before, T.Get(key.Whole(), now));
        if full.Some? && !full.value.listing.truncated {
          DerivedNames(catalog, cap, key, full.value.listing);
          return Success(Listing(Select(full.value.listing.table, key.filter, key.name), false));
        }
      }
      var feed := ListDir(offer, rows, key.filter, key.name);
      r := QueryListing(feed, Select(rows, key.filter, key.name), cap);
    }

    // The listing of one directory under some filters: from the cache, from a computation
    // already in flight, or computed here.
    method BaseListing(path: string, filter: TypeFilter, name: string, epoch: Epoch, offer: Offer,
                       nbytes: nat, t0: real, t1: real, t2: real, t3: real)
      returns (r: Listed)
      requires Valid() && Serves(offer, Rows(catalog, epoch, path), filter, name)
      modifies `entries, cache
      ensures Valid() && old(entries) <= entries && fresh(entries - old(entries))
      ensures r.Found? ==>
        r.entry in entries && Names(catalog, cap, Key(epoch, path, filter, name), r.entry.listing)
      ensures r.Joined? ==>
        Key(epoch, path, filter, name) in old(cache.inflight)
        && r.flight == old(cache.inflight)[Key(epoch, path, filter, name)]
      ensures r.Failed? ==> offer.plain.fails || offer.pushed.fails
      ensures Seen(old(cache.d), Key(epoch, path, filter, name), t0)
              == if r.Found? && r.cached then Some(r.entry) else None
      ensures cache.log == old(cache.log) + [T.Get(Key(epoch, path, filter, name), t0)]
              + if r.Led() then LedOps(Key(epoch, path, filter, name), r, nbytes, t1, t2, t3) else []
      ensures r.Led() ==> Key(epoch, path, filter, name) !in old(cache.inflight)
      ensures var key := Key(epoch, path, filter, name);
              var d := T.Apply(old(cache.d), T.Get(key, t0), cache.limits);
              r.Led() && Derives(d, key, t1) ==> r.Found? && r.entry.listing == DerivedFrom(d, key, t1)
      ensures cache.inflight == old(cache.inflight)
    {
      hide IsListing, DistinctNames, IsSort, Select, Serves, T.Latest, Names, T.Apply, T.Replay, Derives, DerivedFrom,
           LedOps;
      var key := Key(epoch, path, filter, name);
      ghost var log0 := cache.log;
      var turn := cache.Begin(key, t0);
      ReplayNext(log0, T.Get(key, t0), cache.limits);
      CoherentSnoc(log0, T.Get(key, t0));
      match turn {
        case Hit(entry) => r := Found(entry, true);
        case Follow(flight) => r := Joined(flight);
        case Lead(flight) =>
          PutAndRemoved(old(cache.inflight), key, flight);
          r := LeadListing(key, flight, offer, nbytes, t1, t2, t3);
      }
    }

    // The part of a caller that leads: compute, cache the entry, resolve the flight.
    method LeadListing(key: Key, flight: Flight<ListingEntry>, offer: Offer, nbytes: nat, t1: real, t2: real, t3: real)
      returns (r: Listed)
      requires Valid() && Serves(offer, Rows(catalog, key.epoch, key.path), key.filter, key.name)
      requires key in cache.inflight && cache.inflight[key] == flight && flight.outcome.None?
      modifies `entries, cache, flight
      ensures Valid() && old(entries) <= entries && fresh(entries - old(entries))
      ensures r.Found? || r.Failed?
      ensures r.Found? ==> !r.cached && r.entry in entries && Names(catalog, cap, key, r.entry.listing)
      ensures r.Found? ==> flight.outcome == Some(Success(r.entry))
      ensures r.Failed? ==> flight.outcome == Some(Failure(r.message)) && (offer.plain.fails || offer.pushed.fails)
      ensures cache.log == old(cache.log) + LedOps(key, r, nbytes, t1, t2, t3)
      ensures r.Failed? ==> forall op <- cache.log[|old(cache.log)|..] :: !op.Put?
      ensures Derives(old(cache.d), key, t1) ==> r.Found? && r.entry.listing == DerivedFrom(old(cache.d), key, t1)
      ensures cache.inflight == old(cache.inflight) - {key}
    {
      hide IsListing, DistinctNames, IsSort, Select, Serves, T.Latest, Names, LookOps, LedOps, Coherent, Derives,
           DerivedFrom;
      ghost var before := cache.log;
      var outcome := Compute(key, offer, t1);
      match outcome {
        case Failure(e) =>
          cache.Finish(key, flight, Failure(e), t2, t3);
          r := Failed(e);
        case Success(l) =>
          r := Publish(key, flight, l, nbytes, t2, t3);
      }
      LedOpsAre(before, key, r, nbytes, t1, t2, t3);
    }

    // Cache the entry of a listing and hand it to those who wait for it.
    method Publish(key: Key, flight: Flight<ListingEntry>, l: Listing, nbytes: nat, t2: real, t3: real)
      returns (r: Listed)
      requires Valid() && Names(catalog, cap, key, l)
      requires key in cache.inflight && cache.inflight[key] == flight && flight.outcome.None?
      modifies `entries, cache, flight
      ensures Valid() && old(entries) <= entries && fresh(entries - old(entries))
      ensures r.Found? && !r.cached && r.entry in entries && r.entry.listing == l
      ensures flight.outcome == Some(Success(r.entry))
      ensures cache.log == old(cache.log) + [T.Put(key, r.entry, nbytes, t2, t3)]
      ensures cache.inflight == old(cache.inflight) - {key}
    {
      hide IsListing, DistinctNames, IsSort, Select, Serves, T.Latest, Names;
      var entry := Register(key, l);
      ghost var log1 := cache.log;
      cache.Finish(key, flight, Success((entry, nbytes)), t2, t3);
      CoherentSnoc(log1, T.Put(key, entry, nbytes, t2, t3));
      r := Found(entry, false);
    }

    // One page of a listing under one sort order.
    method ListPage(path: string, page: int, pageSize: Option<int>, order: SortKey, filter: TypeFilter,
                    name: string, epoch: Epoch, offer: Offer, nbytes: nat, t0: real, t1: real, t2: real, t3: real)
      returns (p: Option<Page>, r: Listed, ghost sorted: Table)
      requires Valid() && Serves(offer, Rows(catalog, epoch, NormalizePrefix(path)), filter, name)
      modifies this, cache, entries
      ensures Valid()
      ensures p.Some? <==> r.Found?
      ensures p.Some? ==>
        && Names(catalog, cap, Key(epoch, NormalizePrefix(path), filter, name), r.entry.listing)
        && IsSort(sorted, r.entry.listing.table, order)
        && p.value.size == ClampPageSize(if pageSize.None? then pageDefault else pageSize.value, pageMax)
        && p.value.total == |sorted| && p.value.pages == PageCount(|sorted|, p.value.size)
        && p.value.page == ClampPage(page, p.value.pages)
        && p.value.rows == Window(sorted, p.value.page, p.value.size)
        && IsPage(p.value.rows, sorted, p.value.page, p.value.size)
        && (p.value.truncated <==> |Select(Rows(catalog, epoch, NormalizePrefix(path)), filter, name)| > cap)
        && (!p.value.truncated ==>
              multiset(sorted) == multiset(Select(Rows(catalog, epoch, NormalizePrefix(path)), filter, name)))
        && p.value.truncated == r.entry.listing.truncated
        && p.value.dirs == |Select(r.entry.listing.table, Dirs, "")|
        && p.value.files == |Select(r.entry.listing.table, Files, "")|
        && p.value.others == |Select(r.entry.listing.table, OtherTypes, "")|
    {
      hide IsListing, DistinctNames, IsSort, Names, Select, Serves, T.Latest, PageCount, Window, IsPage;
      sorted := [];
      r := BaseListing(NormalizePrefix(path), filter, name, epoch, offer, nbytes, t0, t1, t2, t3);
      if !r.Found? {
        return None, r, sorted;
      }
      var out := r.entry.SortedTable(order);
      SortKeepsSize(out, r.entry.listing.table, order);
      var size := ClampPageSize(if pageSize.None? then pageDefault else pageSize.value, pageMax);
      var pages := PageCount(|out|, size);
      var number := ClampPage(page, pages);
      sorted := out;
      var total := |r.entry.listing.table|;
      var dirs, files := TypeCounts(r.entry.listing.table);
      TypesPartition(r.entry.listing.table);
      NamesMeans(catalog, cap, Key(epoch, NormalizePrefix(path), filter, name), r.entry.listing);
      ListingMeans(r.entry.listing, Select(Rows(catalog, epoch, NormalizePrefix(path)), filter, name), cap);
      SortMeans(out, r.entry.listing.table, order);
      WindowRows(out, number, size);
      p := Some(Page(Window(out, number, size), total, dirs, files, total - dirs - files,
                     number, size, pages, r.entry.listing.truncated));
    }

    // The whole listing under one sort order, for export.
    method ListingTable(path: string, order: SortKey, filter: TypeFilter, name: string, epoch: Epoch, offer: Offer,
                        nbytes: nat, t0: real, t1: real, t2: real, t3: real)
      returns (table: Option<(Table, bool)>, r: Listed)
      requires Valid() && Serves(offer, Rows(catalog, epoch, NormalizePrefix(path)), filter, name)
      modifies this, cache, entries
      ensures Valid()
      ensures table.Some? <==> r.Found?
      ensures table.Some? ==>
        && Names(catalog, cap, Key(epoch, NormalizePrefix(path), filter, name), r.entry.listing)
        && IsSort(table.value.0, r.entry.listing.table, order) && table.value.1 == r.entry.listing.truncated
    {
      hide IsListing, DistinctNames, IsSort, Names, Select, Serves, T.Latest;
      r := BaseListing(NormalizePrefix(path), filter, name, epoch, offer, nbytes, t0, t1, t2, t3);
      if !r.Found? {
        return None, r;
      }
      var out := r.entry.SortedTable(order);
      table := Some((out, r.entry.listing.truncated));
    }

    // Make sure the unfiltered listing is cached with enough life left, and return the child
    // directories it names.
    method WarmListing(path: string, minTtl: real, epoch: Epoch, offer: Offer, nbytes: nat,
                       t0: real, t1: real, t2: real, t3: real)
      returns (r: Result<seq<string>, string>, ghost listing: Listing, ghost put: Option<ListingEntry>)
      requires Valid() && Serves(offer, Rows(catalog, epoch, NormalizePrefix(path)), AnyType, "")
      modifies `entries, cache`d, cache`bytes, cache`log
      ensures Valid()
      ensures r.Success? ==>
        && Names(catalog, cap, Key(epoch, NormalizePrefix(path), AnyType, ""), listing)
        && r.value == DirNames(listing.table)
      ensures r.Failure? ==> offer.plain.fails
      ensures var key := Key(epoch, NormalizePrefix(path), AnyType, "");
              if LongLived(old(cache.d), key, t0, t1, minTtl)
              then r.Success? && put.None? && listing == Seen(old(cache.d), key, t1).value.listing
              else put.Some? == r.Success? && (put.Some? ==> put.value.listing == listing)
      ensures var key := Key(epoch, NormalizePrefix(path), AnyType, "");
              match (LifeLeft(old(cache.d), key, t0), Seen(old(cache.d), key, t1))
              case (Some(left), Some(entry)) =>
                left >= minTtl ==> r.Success? && put.None? && listing == entry.listing
              case _ => true
      ensures var key := Key(epoch, NormalizePrefix(path), AnyType, "");
              cache.log == old(cache.log) + FreshOps(old(cache.d), key, t0, t1, minTtl)
                           + if put.Some? then [T.Put(key, put.value, nbytes, t2, t3)] else []
      ensures r.Success? && minTtl <= cache.limits.ttl && t0 <= t3
              && (cache.limits.max == 0 || nbytes <= cache.limits.max) ==>
        && cache.d != [] && cache.d[|cache.d| - 1].key == Key(epoch, NormalizePrefix(path), AnyType, "")
        && cache.d[|cache.d| - 1].expires >= t0 + minTtl
    {
      hide IsListing, DistinctNames, IsSort, Names, Select, Serves, T.Latest, T.Clocked, LongLived, FreshOps,
           LifeLeft, Seen, DirNames;
      var key := Key(epoch, NormalizePrefix(path), AnyType, "");
      LongLivedMeans(cache.d, key, t0, t1, minTtl);
      var kept := Fresh(key, minTtl, t0, t1);
      if kept.Some? {
        listing := kept.value.listing;
        return Success(DirNames(kept.value.listing.table)), listing, None;
      }
      r, listing, put := Requery(key, offer, nbytes, t2, t3);
    }

    // Query the unfiltered listing again and cache it.
    method Requery(key: Key, offer: Offer, nbytes: nat, t2: real, t3: real)
      returns (r: Result<seq<string>, string>, ghost listing: Listing, ghost put: Option<ListingEntry>)
      requires Valid() && Serves(offer, Rows(catalog, key.epoch, key.path), AnyType, "") && key == key.Whole()
      modifies `entries, cache`d, cache`bytes, cache`log
      ensures Valid()
      ensures put.Some? == r.Success? && (put.Some? ==> put.value.listing == listing)
      ensures r.Success? ==> Names(catalog, cap, key, listing) && r.value == DirNames(listing.table)
      ensures r.Failure? ==> offer.plain.fails
      ensures cache.log == old(cache.log) + if put.Some? then [T.Put(key, put.value, nbytes, t2, t3)] else []
      ensures r.Success? && (cache.limits.max == 0 || nbytes <= cache.limits.max) ==>
        && cache.d != [] && cache.d[|cache.d| - 1].key == key
        && cache.d[|cache.d| - 1].expires == t3 + cache.limits.ttl
    {
      hide IsListing, DistinctNames, IsSort, Names, Select, Serves, T.Latest, T.Clocked;
      var feed := ListDir(offer, Rows(catalog, key.epoch, key.path), AnyType, "");
      ghost var rows := Select(Rows(catalog, key.epoch, key.path), AnyType, "");
      var queried := QueryListing(feed, rows, cap);
      if queried.Failure? {
        return Failure(queried.error), Listing([], false), None;
      }
      assert Names(catalog, cap, key, queried.value) by { NamesMeans(catalog, cap, key, queried.value); }
      var entry := Register(key, queried.value);
      ghost var log1 := cache.log;
      var cached := cache.Put(key, entry, nbytes, t2, t3);
      CoherentSnoc(log1, T.Put(key, entry, nbytes, t2, t3));
      listing, put := entry.listing, Some(entry);
      r := Success(DirNames(entry.listing.table));
    }

    // The cached unfiltered listing, if it will live for long enough.
    method Fresh(key: Key, minTtl: real, t0: real, t1: real) returns (kept: Option<ListingEntry>)
      requires Valid()
      modifies cache`d, cache`bytes, cache`log
      ensures Valid()
      ensures kept.Some? ==> kept.value in entries && Names(catalog, cap, key, kept.value.listing)
      ensures kept == if LongLived(old(cache.d), key, t0, t1, minTtl) then Seen(old(cache.d), key, t1) else None
      ensures cache.log == old(cache.log) + FreshOps(old(cache.d), key, t0, t1, minTtl)
      ensures kept.Some? ==>
        && cache.d != [] && cache.d[|cache.d| - 1].key == key && cache.d[|cache.d| - 1].expires >= t0 + minTtl
    {
      hide IsListing, DistinctNames, IsSort, Names, Select, Serves, T.Latest, T.Clocked, T.CrowdedOut, T.Recency;
      kept := None;
      ghost var log0 := cache.log;
      var remaining := cache.ExpiresIn(key, t0);
      CoherentSnoc(log0, T.Peek(key, t0));
      if remaining.Some? && remaining.value >= minTtl {
        ghost var log1 := cache.log;
        LatestKept(log0, T.Peek(key, t0), key);
        kept := cache.Get(key, t1);
        CoherentSnoc(log1, T.Get(key, t1));
      }
    }
  }

  lemma PutAndRemoved<K, V>(m: map<K, V>, k: K, v: V)
    requires k !in m
    ensures m[k := v] - {k} == m
  {
  }

  lemma ReplayNext<K, V>(log: seq<T.Op<K, V>>, op: T.Op<K, V>, limits: T.Limits)
    ensures T.Replay(log + [op], limits) == T.Apply(T.Replay(log, limits), op, limits)
  {
    assert (log + [op])[..|log|] == log;
  }

  // What a computation asks of the cache ...
  ghost function LookOps(key: Key, now: real): seq<T.Op<Key, ListingEntry>> {
    if key.Filtered() then [T.Get(key.Whole(), now)] else []
  }

  // ... and leaves in it: its entry, or nothing when it fails.
  ghost function LedOps(key: Key, r: Listed, nbytes: nat, t1: real, t2: real, t3: real): seq<T.Op<Key, ListingEntry>> {
    LookOps(key, t1) + if r.Found? then [T.Put(key, r.entry, nbytes, t2, t3)] else []
  }

  lemma LedOpsAre(log: seq<T.Op<Key, ListingEntry>>, key: Key, r: Listed, nbytes: nat, t1: real, t2: real, t3: real)
    ensures var after := log + LookOps(key, t1) + if r.Found? then [T.Put(key, r.entry, nbytes, t2, t3)] else [];
            && after == log + LedOps(key, r, nbytes, t1, t2, t3)
            && (r.Failed? ==> forall op <- after[|log|..] :: !op.Put?)
    ensures log + LookOps(key, t1) == log + LookOps(key, t1) + []
  {
  }

  // What a refresh asks of the cache: how long the entry will live, then the entry.
  ghost function FreshOps(d: seq<T.Slot<Key, ListingEntry>>, key: Key, t0: real, t1: real, minTtl: real)
    : seq<T.Op<Key, ListingEntry>>
  {
    [T.Peek(key, t0)]
    + if LifeLeft(d, key, t0).Some? && LifeLeft(d, key, t0).value >= minTtl then [T.Get(key, t1)] else []
  }

  // The complete unfiltered listing is there to derive a filtered one from.
  ghost predicate Derives(d: seq<T.Slot<Key, ListingEntry>>, key: Key, now: real) {
    key.Filtered() && Seen(d, key.Whole(), now).Some? && !Seen(d, key.Whole(), now).value.listing.truncated
  }

  ghost function DerivedFrom(d: seq<T.Slot<Key, ListingEntry>>, key: Key, now: real): Listing
    requires Derives(d, key, now)
  {
    Listing(Select(Seen(d, key.Whole(), now).value.listing.table, key.filter, key.name), false)
  }

  // The unfiltered listing is there and will live for long enough.
  ghost predicate LongLived(d: seq<T.Slot<Key, ListingEntry>>, key: Key, t0: real, t1: real, minTtl: real) {
    LifeLeft(d, key, t0).Some? && LifeLeft(d, key, t0).value >= minTtl && Seen(d, key, t1).Some?
  }

  lemma LongLivedMeans(d: seq<T.Slot<Key, ListingEntry>>, key: Key, t0: real, t1: real, minTtl: real)
    ensures match (LifeLeft(d, key, t0), Seen(d, key, t1))
            case (Some(left), Some(entry)) => left >= minTtl ==> LongLived(d, key, t0, t1, minTtl)
            case _ => true
    ensures LongLived(d, key, t0, t1, minTtl) ==> Seen(d, key, t1).Some?
  {
  }

  // Directories and files of a table.
  method TypeCounts(t: Table) returns (dirs: nat, files: nat)
    ensures dirs == |Select(t, Dirs, "")| && files == |Select(t, Files, "")|
  {
    dirs, files := 0, 0;
    for n := 0 to |t|
      invariant dirs == |Select(t[..n], Dirs, "")| && files == |Select(t[..n], Files, "")|
    {
      assert t[..n + 1][..n] == t[..n];
      if t[n].kind == "DIR" {
        dirs := dirs + 1;
      } else if t[n].kind == "FILE" {
        files := files + 1;
      }
    }
    assert t[..|t|] == t;
  }

  lemma LatestKept(log: seq<T.Op<Key, ListingEntry>>, op: T.Op<Key, ListingEntry>, key: Key)
    requires op.Peek?
    ensures T.Latest(log + [op], key) == T.Latest(log, key)
  {
    assert (log + [op])[..|log|] == log;
  }

  lemma NamesMeans(catalog: Catalog, cap: nat, key: Key, l: Listing)
    ensures Names(catalog, cap, key, l)
            <==> IsListing(l, Select(Rows(catalog, key.epoch, key.path), key.filter, key.name), cap)
  {
  }

  lemma ListingMeans(l: Listing, rows: Table, cap: nat)
    ensures IsListing(l, rows, cap) ==>
      && (l.truncated <==> |rows| > cap)
      && (!l.truncated ==> multiset(l.table) == multiset(rows))
  {
  }

  lemma SortMeans(out: Table, table: Table, key: SortKey)
    requires IsSort(out, table, key)
    ensures multiset(out) == multiset(table)
  {
  }

  lemma SortKeepsSize(out: Table, table: Table, key: SortKey)
    requires IsSort(out, table, key)
    ensures |out| == |table|
  {
    assert |multiset(out)| == |multiset(table)|;
  }

  function DirNames(t: Table): seq<string> {
    if t == [] then [] else
    DirNames(t[..|t| - 1]) + if t[|t| - 1].kind == "DIR" then [t[|t| - 1].name] else []
  }

  lemma {:induction false} DirNamesMembers(t: Table, name: string)
    ensures name in DirNames(t) <==> exists e <- t :: e.kind == "DIR" && e.name == name
  {
    if t != [] {
      var rest, last := t[..|t| - 1], t[|t| - 1];
      DirNamesMembers(rest, name);
      assert t == rest + [last];
    }
  }

  // The warmer sees every child directory of a complete listing, and only real ones of a
  // truncated one.
  lemma ChildrenSeen(catalog: Catalog, cap: nat, epoch: Epoch, path: string, l: Listing, name: string)
    requires Names(catalog, cap, Key(epoch, path, AnyType, ""), l)
    ensures name in DirNames(l.table) ==> exists e <- Rows(catalog, epoch, path) :: e.kind == "DIR" && e.name == name
    ensures !l.truncated ==>
      (name in DirNames(l.table) <==> exists e <- Rows(catalog, epoch, path) :: e.kind == "DIR" && e.name == name)
  {
    var rows := Rows(catalog, epoch, path);
    SelectAll(rows);
    DirNamesMembers(l.table, name);
    forall e
      ensures e in l.table ==> e in rows
      ensures !l.truncated ==> (e in l.table <==> e in rows)
    {
      assert e in l.table <==> e in multiset(l.table);
      assert e in rows <==> e in multiset(rows);
    }
  }
}
