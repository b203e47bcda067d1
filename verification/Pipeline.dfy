/**
 The pipelined rollup: one stream of batches, a bounded set of aggregation futures
 completing in any order, and the merge of their partial results.
 */
module Pipeline {
  import opened Wrappers
  import opened Sets
  import opened Folding
  import opened FolderFacts
  import opened Rollup

  // The batches a scan delivers before it ends, and whether it ends by an exception raised
  // by the reader or by the progress callback.
  datatype Stream = Stream(batches: seq<Batch>, fails: bool)

  datatype PipelineResult = Grouped(groups: Groups, total: nat) | RollupTooWide | StreamFailed

  // ---- merging one partial result ---------------------------------------------------

  // partial.items(): the order of a dictionary is not relied on.
  method ListItems(partial: Groups) returns (items: seq<Item>)
    requires partial.Valid()
    ensures GroupMap(items) == partial.View() && KeysOf(items) == partial.table.Keys
    ensures forall i, j :: 0 <= i < j < |items| ==> items[i].key != items[j].key
  {
    items := [];
    var rest := partial.table.Keys;
    ghost var view := partial.View();
    while rest != {}
      invariant rest <= partial.table.Keys
      invariant KeysOf(items) == partial.table.Keys - rest
      invariant forall i, j :: 0 <= i < j < |items| ==> items[i].key != items[j].key
      invariant GroupMap(items) == map k | k in view && k !in rest :: view[k]
    {
      var key :| key in rest;
      var s := partial.table[key];
      var item := Item(key, Stats(s.files, s.bytes, s.used, s.mtime, s.atime));
      AddItem(items, item, view, rest);
      items := items + [item];
      rest := rest - {key};
    }
  }

  lemma AddItem(items: seq<Item>, item: Item, view: map<string, Stats>, rest: set<string>)
    requires item.key in rest && item.key in view && item.stats == view[item.key]
    requires GroupMap(items) == map k | k in view && k !in rest :: view[k]
    ensures GroupMap(items + [item]) == map k | k in view && k !in rest - {item.key} :: view[k]
    ensures KeysOf(items + [item]) == KeysOf(items) + {item.key}
    ensures item.key !in KeysOf(items) ==> forall x <- items :: x.key != item.key
  {
    forall x <- items
      ensures x.key in KeysOf(items)
    {
      var i :| 0 <= i < |items| && items[i] == x;
      KeyAt(items, i);
    }
    assert (items + [item])[..|items|] == items;
    MergeZero(item.stats);
    assert At(GroupMap(items), item.key) == ZERO;
  }

  method MergeGroups(groups: Groups, partial: Groups, max: nat) returns (ok: bool)
    requires groups.Valid() && partial.Valid() && Fits(max, groups.table.Keys)
    modifies groups, groups.Repr
    ensures groups.Valid() && fresh(groups.Repr - old(groups.Repr))
    ensures ok ==> IsMerge(groups.View(), old(groups.View()), old(partial.View()))
    ensures ok <==> Fits(max, old(groups.table.Keys + partial.table.Keys))
  {
    hide *;
    var items := ListItems(partial);
    FoldMerges(groups.View(), items);
    ok := FoldItems(items, groups, max);
  }

  // ---- what has been gathered so far ----------------------------------------------------

  function Tags(batches: seq<Batch>, prefix: string, depth: nat): seq<Item> {
    Tag(Flat(batches), prefix, depth)
  }

  ghost predicate Gathered(batches: seq<Batch>, prefix: string, depth: nat, now: map<string, Stats>, max: nat) {
    now == GroupMap(Tags(batches, prefix, depth)) && Fits(max, KeysOf(Tags(batches, prefix, depth)))
  }

  lemma TagsSnoc(batches: seq<Batch>, b: Batch, prefix: string, depth: nat)
    ensures Flat(batches + [b]) == Flat(batches) + b
    ensures Tags(batches + [b], prefix, depth) == Tags(batches, prefix, depth) + Tag(b, prefix, depth)
  {
    assert (batches + [b])[..|batches|] == batches;
    TagConcat(Flat(batches), b, prefix, depth);
  }

  lemma GatherOne(batches: seq<Batch>, b: Batch, prefix: string, depth: nat,
                  now: map<string, Stats>, next: map<string, Stats>, max: nat)
    requires Gathered(batches, prefix, depth, now, max) && IsMerge(next, now, GroupMap(Tag(b, prefix, depth)))
    requires Fits(max, KeysOf(Tags(batches + [b], prefix, depth)))
    ensures Gathered(batches + [b], prefix, depth, next, max)
  {
    var done, added := Tags(batches, prefix, depth), Tag(b, prefix, depth);
    TagsSnoc(batches, b, prefix, depth);
    FoldConcat(map[], done, added);
    FoldMerges(now, added);
    MergeUnique(next, FoldInto(now, added), now, GroupMap(added));
  }

  lemma GatherKeys(batches: seq<Batch>, b: Batch, prefix: string, depth: nat, now: map<string, Stats>, max: nat)
    requires Gathered(batches, prefix, depth, now, max)
    ensures KeysOf(Tags(batches + [b], prefix, depth)) == now.Keys + KeysOf(Tag(b, prefix, depth))
    ensures now.Keys == KeysOf(Tags(batches, prefix, depth))
  {
    TagsSnoc(batches, b, prefix, depth);
    KeysConcat(Tags(batches, prefix, depth), Tag(b, prefix, depth));
    FoldKeys(map[], Tags(batches, prefix, depth));
  }

  lemma GatherEmpty(batches: seq<Batch>, prefix: string, depth: nat, now: map<string, Stats>, max: nat)
    requires Gathered(batches, prefix, depth, now, max)
    ensures Gathered(batches + [[]], prefix, depth, now, max) && Flat(batches + [[]]) == Flat(batches)
  {
    TagsSnoc(batches, [], prefix, depth);
    assert Tags(batches + [[]], prefix, depth) == Tags(batches, prefix, depth);
  }

  // ---- order of completion does not matter --------------------------------------------------

  lemma {:induction false} TagPermutes(a: Batch, b: Batch, prefix: string, depth: nat)
    requires multiset(a) == multiset(b)
    ensures multiset(Tag(a, prefix, depth)) == multiset(Tag(b, prefix, depth))
    decreases |a|
  {
    if a == [] {
      SameEmpty(a, b);
    } else {
      hide Tag;
      var i := TakeLast(a, b);
      var rest, x := a[..|a| - 1], a[|a| - 1];
      assert a == rest + [x];
      TagPermutes(rest, b[..i] + b[i + 1..], prefix, depth);
      TagConcat(rest, [x], prefix, depth);
      TagConcat(b[..i] + [x], b[i + 1..], prefix, depth);
      TagConcat(b[..i], [x], prefix, depth);
      TagConcat(b[..i], b[i + 1..], prefix, depth);
    }
  }

  // Whatever the order in which batches were gathered, the groups are those of one
  // sequential fold over the stream.
  lemma GatheredInAnyOrder(order: seq<Batch>, batches: seq<Batch>, prefix: string, depth: nat)
    requires multiset(order) == multiset(batches)
    ensures GroupMap(Tags(order, prefix, depth)) == GroupMap(Tags(batches, prefix, depth))
    ensures KeysOf(Tags(order, prefix, depth)) == KeysOf(Tags(batches, prefix, depth))
    ensures |Flat(order)| == |Flat(batches)|
  {
    FlatPermutes(order, batches);
    assert |multiset(Flat(order))| == |multiset(Flat(batches))|;
    TagPermutes(Flat(order), Flat(batches), prefix, depth);
    PermutationSameGroups(Tags(order, prefix, depth), Tags(batches, prefix, depth));
  }

  // Gathering part of a stream sees part of its keys.
  lemma PartOfKeys(part: seq<Batch>, left: seq<Batch>, batches: seq<Batch>, prefix: string, depth: nat, max: nat)
    requires multiset(part) + multiset(left) == multiset(batches)
    requires !Fits(max, KeysOf(Tags(part, prefix, depth)))
    ensures !Fits(max, KeysOf(Tags(batches, prefix, depth)))
  {
    assert multiset(part + left) == multiset(batches);
    GatheredInAnyOrder(part + left, batches, prefix, depth);
    FlatConcat(part, left);
    TagConcat(Flat(part), Flat(left), prefix, depth);
    KeysConcat(Tags(part, prefix, depth), Tags(left, prefix, depth));
    SubsetCard(KeysOf(Tags(part, prefix, depth)), KeysOf(Tags(batches, prefix, depth)));
  }

  // ---- the pipeline ----------------------------------------------------------------------------

  // wait(pending, return_when=FIRST_COMPLETED): some pending futures are done, in some order.
  // Callers can rely on no particular choice.
  method Wait(pending: seq<Batch>) returns (done: seq<Batch>, rest: seq<Batch>)
    requires pending != []
    ensures done != [] && multiset(done) + multiset(rest) == multiset(pending)
    ensures |done| + |rest| == |pending|
  {
    done, rest := pending[..1], pending[1..];
    assert pending == done + rest;
  }

  // One finished future: its batch aggregated on its own, then merged.
  method CollectOne(ghost before: seq<Batch>, batch: Batch, prefix: string, depth: nat, groups: Groups, max: nat)
    returns (ok: bool)
    requires groups.Valid() && Gathered(before, prefix, depth, groups.View(), max)
    modifies groups, groups.Repr
    ensures groups.Valid() && fresh(groups.Repr - old(groups.Repr))
    ensures if ok then Gathered(before + [batch], prefix, depth, groups.View(), max)
            else !Fits(max, KeysOf(Tags(before + [batch], prefix, depth)))
    ensures |Flat(before + [batch])| == |Flat(before)| + |batch|
  {
    hide *;
    ghost var now := groups.View();
    BatchKeys(before, batch, prefix, depth, now, max);
    var fits, partial := AggregateFuture(batch, prefix, depth, max);
    if !fits {
      return false;
    }
    ok := MergeGroups(groups, partial, max);
    if ok {
      GatherOne(before, batch, prefix, depth, now, groups.View(), max);
    }
  }

  // What one more batch does to the keys gathered.
  lemma BatchKeys(before: seq<Batch>, batch: Batch, prefix: string, depth: nat, now: map<string, Stats>, max: nat)
    requires Gathered(before, prefix, depth, now, max)
    ensures Fits(max, now.Keys)
    ensures KeysOf(Tags(before + [batch], prefix, depth)) == now.Keys + KeysOf(Tag(batch, prefix, depth))
    ensures !Fits(max, KeysOf(Tag(batch, prefix, depth))) ==> !Fits(max, KeysOf(Tags(before + [batch], prefix, depth)))
    ensures |Flat(before + [batch])| == |Flat(before)| + |batch|
  {
    GatherKeys(before, batch, prefix, depth, now, max);
    TagsSnoc(before, batch, prefix, depth);
    ghost var seen := KeysOf(Tag(batch, prefix, depth));
    SubsetCard(seen, now.Keys + seen);
  }

  // The work of one future: a batch grouped into a dictionary of its own.
  method AggregateFuture(batch: Batch, prefix: string, depth: nat, max: nat) returns (fits: bool, partial: Groups)
    ensures fits <==> Fits(max, KeysOf(Tag(batch, prefix, depth)))
    ensures partial.Valid() && fresh(partial) && fresh(partial.Repr)
    ensures fits ==> partial.View() == GroupMap(Tag(batch, prefix, depth))
    ensures fits ==> partial.table.Keys == KeysOf(Tag(batch, prefix, depth))
  {
    partial := new Groups();
    SingleBatch(batch);
    FoldKeys(map[], Tag(batch, prefix, depth));
    var rows := AggregateReader([batch], prefix, depth, partial, max);
    fits := rows.Rows?;
  }

  lemma SingleBatch(batch: Batch)
    ensures Flat([batch]) == batch
  {
    assert [batch][..0] == [];
  }

  method Collect(ghost before: seq<Batch>, done: seq<Batch>, prefix: string, depth: nat, groups: Groups, max: nat)
    returns (ok: bool, rows: nat, ghost after: seq<Batch>, ghost left: seq<Batch>)
    requires groups.Valid() && Gathered(before, prefix, depth, groups.View(), max)
    modifies groups, groups.Repr
    ensures groups.Valid() && fresh(groups.Repr - old(groups.Repr))
    ensures multiset(after) + multiset(left) == multiset(before) + multiset(done)
    ensures if ok then left == [] && Gathered(after, prefix, depth, groups.View(), max)
                       && rows == |Flat(after)| - |Flat(before)|
            else !Fits(max, KeysOf(Tags(after, prefix, depth)))
  {
    hide *;
    rows, after := 0, before;
    for n := 0 to |done|
      invariant groups.Valid() && fresh(groups.Repr - old(groups.Repr))
      invariant Gathered(after, prefix, depth, groups.View(), max)
      invariant multiset(after) + multiset(done[n..]) == multiset(before) + multiset(done)
      invariant rows == |Flat(after)| - |Flat(before)|
    {
      ok := CollectOne(after, done[n], prefix, depth, groups, max);
      assert done[n..] == [done[n]] + done[n + 1..];
      after, left := after + [done[n]], done[n + 1..];
      if !ok {
        return;
      }
      rows := rows + |done[n]|;
    }
    assert done[|done|..] == [];
    ok, left := true, [];
  }

  // Wait for some futures, then collect what they deliver.
  method Round(ghost gathered: seq<Batch>, pending: seq<Batch>, prefix: string, depth: nat, groups: Groups, max: nat)
    returns (ok: bool, rows: nat, rest: seq<Batch>, ghost after: seq<Batch>, ghost left: seq<Batch>)
    requires pending != []
    requires groups.Valid() && Gathered(gathered, prefix, depth, groups.View(), max)
    modifies groups, groups.Repr
    ensures groups.Valid() && fresh(groups.Repr - old(groups.Repr))
    ensures |rest| < |pending|
    ensures Same(after + left + rest, gathered + pending)
    ensures if ok then left == [] && Gathered(after, prefix, depth, groups.View(), max)
                       && rows == |Flat(after)| - |Flat(gathered)|
            else !Fits(max, KeysOf(Tags(after, prefix, depth)))
  {
    hide *;
    var done;
    done, rest := Wait(pending);
    ok, rows, after, left := Collect(gathered, done, prefix, depth, groups, max);
    RoundAccounts(after, left, rest, gathered, done, pending);
  }

  // The same futures, in whatever order.
  ghost predicate Same(a: seq<Batch>, b: seq<Batch>) { multiset(a) == multiset(b) }

  lemma RoundAccounts(after: seq<Batch>, left: seq<Batch>, rest: seq<Batch>,
                      gathered: seq<Batch>, done: seq<Batch>, pending: seq<Batch>)
    requires multiset(after) + multiset(left) == multiset(gathered) + multiset(done)
    requires multiset(done) + multiset(rest) == multiset(pending)
    ensures Same(after + left + rest, gathered + pending)
  {
    assert multiset(after + left + rest) == multiset(after) + multiset(left) + multiset(rest);
  }

  lemma SameTrans(a: seq<Batch>, left: seq<Batch>, rest: seq<Batch>,
                  gathered: seq<Batch>, pending: seq<Batch>, fed: seq<Batch>)
    requires Same(a + left + rest, gathered + pending) && Same(gathered + pending, fed)
    ensures Same(a + left + rest, fed)
    ensures left == [] ==> Same(a + rest, fed)
  {
    if left == [] {
      assert a + left + rest == a + rest;
    }
  }

  lemma SameSnoc(gathered: seq<Batch>, pending: seq<Batch>, fed: seq<Batch>, b: Batch)
    requires Same(gathered + pending, fed)
    ensures Same(gathered + (pending + [b]), fed + [b])
    ensures Same((gathered + [b]) + pending, fed + [b])
  {
    assert gathered + (pending + [b]) == (gathered + pending) + [b];
    assert multiset((gathered + [b]) + pending) == multiset(gathered + pending) + multiset{b};
  }

  lemma Rejects(part: seq<Batch>, left: seq<Batch>, rest: seq<Batch>, batches: seq<Batch>, n: nat,
                prefix: string, depth: nat, max: nat)
    requires n <= |batches| && Same(part + left + rest, batches[..n])
    requires !Fits(max, KeysOf(Tags(part, prefix, depth)))
    ensures !Fits(max, KeysOf(Tags(batches, prefix, depth)))
  {
    assert batches == batches[..n] + batches[n..];
    assert multiset(part + left + rest) == multiset(part) + multiset(left + rest);
    PartOfKeys(part, left + rest + batches[n..], batches, prefix, depth, max);
  }

  // Wait once; the futures that are done are gathered, or the stream is too wide.
  method Relieve(batches: seq<Batch>, n: nat, ghost before: seq<Batch>, queued: seq<Batch>, count: nat,
                 prefix: string, depth: nat, groups: Groups, max: nat)
    returns (ok: bool, total: nat, pending: seq<Batch>, ghost gathered: seq<Batch>)
    requires n <= |batches| && queued != [] && Same(before + queued, batches[..n])
    requires groups.Valid() && Gathered(before, prefix, depth, groups.View(), max) && count == |Flat(before)|
    modifies groups, groups.Repr
    ensures groups.Valid() && fresh(groups.Repr - old(groups.Repr))
    ensures |pending| < |queued|
    ensures ok ==> Gathered(gathered, prefix, depth, groups.View(), max) && total == |Flat(gathered)|
    ensures ok ==> Same(gathered + pending, batches[..n])
    ensures !ok ==> !Fits(max, KeysOf(Tags(batches, prefix, depth)))
  {
    hide *;
    ghost var left;
    ok, total, pending, gathered, left := Round(before, queued, prefix, depth, groups, max);
    SameTrans(gathered, left, pending, before, queued, batches[..n]);
    if ok {
      total := count + total;
    } else {
      Rejects(gathered, left, pending, batches, n, prefix, depth, max);
    }
  }

  lemma GatherStart(prefix: string, depth: nat, max: nat, batches: seq<Batch>)
    ensures Gathered([], prefix, depth, map[], max)
    ensures Flat<Row>([]) == [] && Same([] + [], batches[..0])
  {
  }

  // Submit every batch of the stream, collecting whenever the bound is reached.
  method Feed(batches: seq<Batch>, prefix: string, depth: nat, threads: nat, groups: Groups, max: nat)
    returns (ok: bool, total: nat, pending: seq<Batch>, ghost gathered: seq<Batch>, ghost peak: nat)
    requires threads > 0 && groups.Valid() && groups.View() == map[]
    modifies groups, groups.Repr
    ensures groups.Valid() && fresh(groups.Repr - old(groups.Repr))
    ensures peak <= 2 * threads
    ensures ok ==> Gathered(gathered, prefix, depth, groups.View(), max) && total == |Flat(gathered)|
    ensures ok ==> Same(gathered + pending, batches)
    ensures !ok ==> !Fits(max, KeysOf(Tags(batches, prefix, depth)))
  {
    hide *;
    var maxPending := threads * 2;
    ok, pending, total, gathered, peak := true, [], 0, [], 0;
    GatherStart(prefix, depth, max, batches);
    for n := 0 to |batches|
      invariant groups.Valid() && fresh(groups.Repr - old(groups.Repr))
      invariant Gathered(gathered, prefix, depth, groups.View(), max) && total == |Flat(gathered)|
      invariant Same(gathered + pending, batches[..n])
      invariant |pending| < maxPending && peak <= maxPending
    {
      assert batches[..n + 1] == batches[..n] + [batches[n]];
      SameSnoc(gathered, pending, batches[..n], batches[n]);
      if |batches[n]| == 0 {
        GatherEmpty(gathered, prefix, depth, groups.View(), max);
        gathered := gathered + [batches[n]];
        continue;
      }
      pending := pending + [batches[n]];
      peak := if |pending| > peak then |pending| else peak;
      if |pending| >= maxPending {
        ok, total, pending, gathered :=
          Relieve(batches, n + 1, gathered, pending, total, prefix, depth, groups, max);
        if !ok {
          return;
        }
      }
    }
    assert batches[..|batches|] == batches;
    ok := true;
  }

  lemma GatherAll(gathered: seq<Batch>, batches: seq<Batch>, prefix: string, depth: nat,
                  now: map<string, Stats>, max: nat)
    requires Gathered(gathered, prefix, depth, now, max) && Same(gathered + [], batches)
    ensures Gathered(batches, prefix, depth, now, max) && |Flat(gathered)| == |Flat(batches)|
  {
    assert gathered + [] == gathered;
    GatheredInAnyOrder(gathered, batches, prefix, depth);
  }

  lemma GatheredMeans(batches: seq<Batch>, prefix: string, depth: nat, now: map<string, Stats>, max: nat)
    requires Gathered(batches, prefix, depth, now, max)
    ensures now == GroupMap(Tags(batches, prefix, depth)) && Fits(max, KeysOf(Tags(batches, prefix, depth)))
  {
  }

  // Collect until nothing is pending.
  method Drain(batches: seq<Batch>, queued: seq<Batch>, ghost before: seq<Batch>, fed: nat,
               prefix: string, depth: nat, groups: Groups, max: nat)
    returns (ok: bool, total: nat)
    requires groups.Valid() && Gathered(before, prefix, depth, groups.View(), max) && fed == |Flat(before)|
    requires Same(before + queued, batches)
    modifies groups, groups.Repr
    ensures groups.Valid() && fresh(groups.Repr - old(groups.Repr))
    ensures ok ==> Gathered(batches, prefix, depth, groups.View(), max) && total == |Flat(batches)|
    ensures !ok ==> !Fits(max, KeysOf(Tags(batches, prefix, depth)))
  {
    hide *;
    var pending := queued;
    ghost var gathered := before;
    ok, total := true, fed;
    assert batches[..|batches|] == batches;
    while pending != []
      invariant groups.Valid() && fresh(groups.Repr - old(groups.Repr))
      invariant Gathered(gathered, prefix, depth, groups.View(), max) && total == |Flat(gathered)|
      invariant Same(gathered + pending, batches)
      decreases |pending|
    {
      ok, total, pending, gathered :=
        Relieve(batches, |batches|, gathered, pending, total, prefix, depth, groups, max);
      if !ok {
        return;
      }
    }
    GatherAll(gathered, batches, prefix, depth, groups.View(), max);
    ok := true;
  }

  lemma MaxMeans(max: nat, keys: set<string>)
    ensures Fits(max, keys) <==> max == 0 || |keys| <= max
  {
  }

  lemma TagsDescribe(batches: seq<Batch>, prefix: string, depth: nat)
    ensures GroupsDescribe(GroupMap(Tags(batches, prefix, depth)), Flat(batches), prefix, depth)
    ensures GroupMap(Tags(batches, prefix, depth)).Keys == KeysOf(Tags(batches, prefix, depth))
  {
    GroupMapDescribes(Flat(batches), prefix, depth);
    GroupAt(Tags(batches, prefix, depth), "");
  }

  // The bounded pipeline returns what one sequential fold over all rows returns, and rejects
  // exactly the streams with more distinct keys than the cap, whatever the order of
  // completion; it never has more than twice the thread count of futures pending.
  method RollupGroups(stream: Stream, prefix: string, depth: nat, threads: nat, max: nat)
    returns (r: PipelineResult, ghost peak: nat)
    requires threads > 0
    ensures peak <= 2 * threads
    ensures r.Grouped? ==>
      && r.groups.Valid() && fresh(r.groups) && fresh(r.groups.Repr)
      && r.groups.View() == GroupMap(Tags(stream.batches, prefix, depth))
      && r.total == |Flat(stream.batches)|
    ensures r.RollupTooWide? ==> !Fits(max, KeysOf(Tags(stream.batches, prefix, depth)))
    ensures r.Grouped? ==> !stream.fails && Fits(max, KeysOf(Tags(stream.batches, prefix, depth)))
    ensures r.StreamFailed? ==> stream.fails
    ensures r.Grouped? ==> GroupsDescribe(r.groups.View(), Flat(stream.batches), prefix, depth)
    ensures r.RollupTooWide? ==> max > 0 && |KeysOf(Tags(stream.batches, prefix, depth))| > max
    ensures r.Grouped? ==> max == 0 || |r.groups.View()| <= max
  {
    hide *;
    MaxMeans(max, KeysOf(Tags(stream.batches, prefix, depth)));
    var groups := new Groups();
    var ok, total, pending;
    ghost var gathered;
    ok, total, pending, gathered, peak := Feed(stream.batches, prefix, depth, threads, groups, max);
    if !ok {
      return RollupTooWide, peak;
    }
    if stream.fails {
      return StreamFailed, peak;
    }
    ok, total := Drain(stream.batches, pending, gathered, total, prefix, depth, groups, max);
    if !ok {
      return RollupTooWide, peak;
    }
    GatheredMeans(stream.batches, prefix, depth, groups.View(), max);
    TagsDescribe(stream.batches, prefix, depth);
    r := Grouped(groups, total);
  }
}
