/**
 The meaning of the cache: the slots it holds after any sequence of operations, as a
 function of those operations.  Slots are listed from least to most recently used.
 */
module TimedCache {
  import opened Wrappers

  datatype Slot<K, V> = Slot(key: K, value: V, expires: real, nbytes: nat)

  // One operation; `now` is the clock it reads first, `stamp` the one a put reads next.
  datatype Op<K, V> =
    | Put(key: K, value: V, nbytes: nat, now: real, stamp: real)
    | Get(key: K, now: real)
    | Peek(key: K, now: real)
    | Prune(now: real)
    | Invalidate(key: K)
    | Clear

  // ttl in seconds; a byte bound of zero means no bound.
  datatype Limits = Limits(ttl: real, max: nat)
  {
    predicate Fits(cost: int) { max == 0 || cost <= max }
  }

  // ---- lists of slots ---------------------------------------------------------------

  ghost predicate Distinct<K, V>(d: seq<Slot<K, V>>) {
    forall i, j :: 0 <= i < j < |d| ==> d[i].key != d[j].key
  }

  ghost predicate Has<K, V>(d: seq<Slot<K, V>>, key: K) {
    exists s <- d :: s.key == key
  }

  function Cost<K, V>(d: seq<Slot<K, V>>): nat {
    if d == [] then 0 else Cost(d[..|d| - 1]) + d[|d| - 1].nbytes
  }

  ghost function Live<K, V>(d: seq<Slot<K, V>>, now: real): seq<Slot<K, V>> {
    if d == [] then [] else
    Live(d[..|d| - 1], now) + if now < d[|d| - 1].expires then [d[|d| - 1]] else []
  }

  ghost function Without<K, V>(d: seq<Slot<K, V>>, key: K): seq<Slot<K, V>> {
    if d == [] then [] else
    Without(d[..|d| - 1], key) + if d[|d| - 1].key != key then [d[|d| - 1]] else []
  }

  ghost function Find<K, V>(d: seq<Slot<K, V>>, key: K): Option<Slot<K, V>> {
    if d == [] then None
    else if d[|d| - 1].key == key then Some(d[|d| - 1])
    else Find(d[..|d| - 1], key)
  }

  // Drop the least recently used slots until the rest fits.
  ghost function Evict<K, V>(d: seq<Slot<K, V>>, limits: Limits): seq<Slot<K, V>> {
    if d == [] || limits.Fits(Cost(d)) then d else Evict(d[1..], limits)
  }

  // ---- the effect of an operation ------------------------------------------------------

  ghost function SlotOf<K, V>(op: Op<K, V>, limits: Limits): Slot<K, V>
    requires op.Put?
  {
    Slot(op.key, op.value, op.stamp + limits.ttl, op.nbytes)
  }

  ghost function Apply<K, V>(d: seq<Slot<K, V>>, op: Op<K, V>, limits: Limits): seq<Slot<K, V>> {
    match op
    case Put(key, _, nbytes, now, _) =>
      var rest := Without(Live(d, now), key);
      if limits.Fits(nbytes) then Evict(rest + [SlotOf(op, limits)], limits) else rest
    case Get(key, now) =>
      (match Find(d, key)
       case None => d
       case Some(s) => if now < s.expires then Without(d, key) + [s] else Without(d, key))
    case Peek(key, now) =>
      (match Find(d, key)
       case None => d
       case Some(s) => if now < s.expires then d else Without(d, key))
    case Prune(now) => Live(d, now)
    case Invalidate(key) => Without(d, key)
    case Clear => []
  }

  ghost function Replay<K, V>(log: seq<Op<K, V>>, limits: Limits): seq<Slot<K, V>> {
    if log == [] then [] else Apply(Replay(log[..|log| - 1], limits), log[|log| - 1], limits)
  }

  // ---- basic facts ---------------------------------------------------------------------

  lemma {:induction false} CostConcat<K, V>(a: seq<Slot<K, V>>, b: seq<Slot<K, V>>)
    ensures Cost(a + b) == Cost(a) + Cost(b)
    decreases |b|
  {
    if b == [] {
      assert a + b == a;
    } else {
      CostConcat(a, b[..|b| - 1]);
      assert (a + b)[..|a + b| - 1] == a + b[..|b| - 1];
    }
  }

  lemma CostOne<K, V>(s: Slot<K, V>)
    ensures Cost([s]) == s.nbytes
  {
    assert [s][..0] == [];
  }

  // Cost of the slots from the i-th on, in terms of those from the next.
  lemma CostFrom<K, V>(d: seq<Slot<K, V>>, i: nat)
    requires i < |d|
    ensures Cost(d[i..]) == d[i].nbytes + Cost(d[i + 1..])
  {
    CostConcat([d[i]], d[i + 1..]);
    CostOne(d[i]);
    assert d[i..] == [d[i]] + d[i + 1..];
  }

  lemma {:induction false} CostSuffix<K, V>(d: seq<Slot<K, V>>, i: nat)
    requires i <= |d|
    ensures Cost(d[i..]) <= Cost(d)
  {
    CostConcat(d[..i], d[i..]);
    assert d == d[..i] + d[i..];
  }

  lemma {:induction false} LiveMembers<K, V>(d: seq<Slot<K, V>>, now: real, s: Slot<K, V>)
    ensures s in Live(d, now) <==> s in d && now < s.expires
  {
    if d != [] {
      var rest, last := d[..|d| - 1], d[|d| - 1];
      LiveMembers(rest, now, s);
      assert d == rest + [last];
    }
  }

  lemma {:induction false} WithoutMembers<K, V>(d: seq<Slot<K, V>>, key: K, s: Slot<K, V>)
    ensures s in Without(d, key) <==> s in d && s.key != key
  {
    if d != [] {
      var rest, last := d[..|d| - 1], d[|d| - 1];
      WithoutMembers(rest, key, s);
      assert d == rest + [last];
    }
  }

  lemma {:induction false} FindMember<K, V>(d: seq<Slot<K, V>>, key: K)
    ensures Find(d, key).Some? <==> Has(d, key)
    ensures Find(d, key).Some? ==> Find(d, key).value in d && Find(d, key).value.key == key
  {
    if d != [] {
      var rest, last := d[..|d| - 1], d[|d| - 1];
      FindMember(rest, key);
      assert d == rest + [last];
      assert last in d;
    }
  }

  lemma FindUnique<K, V>(d: seq<Slot<K, V>>, s: Slot<K, V>)
    requires Distinct(d) && s in d
    ensures Find(d, s.key) == Some(s)
  {
    FindMember(d, s.key);
    var t := Find(d, s.key).value;
    var i :| 0 <= i < |d| && d[i] == s;
    var j :| 0 <= j < |d| && d[j] == t;
    assert i == j;
  }

  // A sublist: some slots left out, order kept.
  ghost predicate Sublist<K, V>(a: seq<Slot<K, V>>, b: seq<Slot<K, V>>) {
    if a == [] then true
    else b != [] && (if a[|a| - 1] == b[|b| - 1] && Sublist(a[..|a| - 1], b[..|b| - 1]) then true
                     else Sublist(a, b[..|b| - 1]))
  }

  lemma {:induction false} LiveSublist<K, V>(d: seq<Slot<K, V>>, now: real)
    ensures Sublist(Live(d, now), d)
  {
    if d != [] {
      var rest, last := d[..|d| - 1], d[|d| - 1];
      LiveSublist(rest, now);
      var l := Live(d, now);
      if now < last.expires {
        assert l[..|l| - 1] == Live(rest, now);
      } else {
        assert l == Live(rest, now);
      }
    }
  }

  lemma {:induction false} WithoutSublist<K, V>(d: seq<Slot<K, V>>, key: K)
    ensures Sublist(Without(d, key), d)
  {
    if d != [] {
      var rest, last := d[..|d| - 1], d[|d| - 1];
      WithoutSublist(rest, key);
      var l := Without(d, key);
      if last.key != key {
        assert l[..|l| - 1] == Without(rest, key);
      } else {
        assert l == Without(rest, key);
      }
    }
  }

  lemma {:induction false} SublistMembers<K, V>(a: seq<Slot<K, V>>, b: seq<Slot<K, V>>, s: Slot<K, V>)
    requires Sublist(a, b) && s in a
    ensures s in b
    decreases |b|
  {
    var rest := b[..|b| - 1];
    assert b == rest + [b[|b| - 1]];
    if a[|a| - 1] == b[|b| - 1] && Sublist(a[..|a| - 1], rest) {
      assert a == a[..|a| - 1] + [a[|a| - 1]];
      if s != a[|a| - 1] {
        SublistMembers(a[..|a| - 1], rest, s);
      }
    } else {
      SublistMembers(a, rest, s);
    }
  }

  lemma {:induction false} SublistCost<K, V>(a: seq<Slot<K, V>>, b: seq<Slot<K, V>>)
    requires Sublist(a, b)
    ensures Cost(a) <= Cost(b)
    decreases |b|
  {
    if a != [] {
      var rest := b[..|b| - 1];
      if a[|a| - 1] == b[|b| - 1] && Sublist(a[..|a| - 1], rest) {
        SublistCost(a[..|a| - 1], rest);
      } else {
        SublistCost(a, rest);
      }
    }
  }

  // ---- eviction keeps the longest suffix that fits ----------------------------------------

  // The slots kept are those from the i-th on: they fit, and no longer suffix does.
  lemma {:induction false} LongestSuffix<K, V>(d: seq<Slot<K, V>>, limits: Limits) returns (i: nat)
    ensures i <= |d| && Evict(d, limits) == d[i..]
    ensures limits.max == 0 || Cost(d[i..]) <= limits.max
    ensures forall j :: 0 <= j < i ==> Cost(d[j..]) > limits.max > 0
  {
    assert d[0..] == d;
    if d == [] || limits.Fits(Cost(d)) {
      i := 0;
    } else {
      var n := LongestSuffix(d[1..], limits);
      i := n + 1;
      assert forall j :: 0 < j <= |d| ==> d[1..][j - 1..] == d[j..];
    }
  }

  // A slot that fits by itself is never evicted to make room for itself.
  lemma NewestStays<K, V>(rest: seq<Slot<K, V>>, s: Slot<K, V>, limits: Limits)
    requires limits.max == 0 || s.nbytes <= limits.max
    ensures var e := Evict(rest + [s], limits); e != [] && e[|e| - 1] == s
  {
    var d := rest + [s];
    var i := LongestSuffix(d, limits);
    assert d[|rest|..] == [s];
    CostOne(s);
  }

  // An older slot survives exactly when it fits together with everything used since and
  // with the new one.
  lemma SurvivesPut<K, V>(rest: seq<Slot<K, V>>, s: Slot<K, V>, limits: Limits, n: nat)
    requires n < |rest| && Distinct(rest + [s])
    ensures Has(Evict(rest + [s], limits), rest[n].key) 
            <==> limits.max == 0 || Cost(rest[n..]) + s.nbytes <= limits.max
  {
    var d := rest + [s];
    var i := LongestSuffix(d, limits);
    hide Cost, Evict;
    assert d[n..] == rest[n..] + [s];
    CostConcat(rest[n..], [s]);
    CostOne(s);
    assert d[n] == rest[n];
    SuffixHas(d, i, n);
    if i <= n {
      CostSuffix(d[i..], n - i);
      assert d[i..][n - i..] == d[n..];
    }
  }

  lemma SuffixHas<K, V>(d: seq<Slot<K, V>>, i: nat, n: nat)
    requires Distinct(d) && i <= |d| && n < |d|
    ensures Has(d[i..], d[n].key) <==> i <= n
  {
    if i <= n {
      assert d[i..][n - i] == d[n];
    } else {
      forall t <- d[i..]
        ensures t.key != d[n].key
      {
        var j :| 0 <= j < |d[i..]| && d[i..][j] == t;
        assert d[i + j] == t;
      }
    }
  }

  // ---- what the history says ------------------------------------------------------------------

  predicate Touches<K(==), V>(op: Op<K, V>, key: K) {
    (op.Put? || op.Get?) && op.key == key
  }

  // When a key was last put or looked up.
  ghost function Recency<K, V>(log: seq<Op<K, V>>, key: K): (n: nat)
    ensures n <= |log|
  {
    if log == [] then 0
    else if Touches(log[|log| - 1], key) then |log|
    else Recency(log[..|log| - 1], key)
  }

  // The put that decides what a key may hold, unless the key was invalidated since.
  ghost function Latest<K, V>(log: seq<Op<K, V>>, key: K): (put: Option<Op<K, V>>)
    ensures put.Some? ==> put.value.Put? && put.value.key == key && put.value in log
  {
    if log == [] then None else
    var before, op := log[..|log| - 1], log[|log| - 1];
    if op.Put? && op.key == key then Some(op)
    else if op.Clear? || (op.Invalidate? && op.key == key) then None
    else Latest(before, key)
  }

  // From least to most recently used.
  ghost predicate InOrder<K, V>(d: seq<Slot<K, V>>, log: seq<Op<K, V>>) {
    forall i, j :: 0 <= i < j < |d| ==> Recency(log, d[i].key) < Recency(log, d[j].key)
  }

  ghost predicate FromLatest<K, V>(d: seq<Slot<K, V>>, log: seq<Op<K, V>>, limits: Limits) {
    forall s <- d :: Latest(log, s.key).Some? && s == SlotOf(Latest(log, s.key).value, limits)
  }

  ghost predicate Faithful<K, V>(d: seq<Slot<K, V>>, log: seq<Op<K, V>>, limits: Limits) {
    InOrder(d, log) && FromLatest(d, log, limits) && (limits.max == 0 || Cost(d) <= limits.max)
  }

  lemma OrderedDistinct<K, V>(d: seq<Slot<K, V>>, log: seq<Op<K, V>>)
    requires InOrder(d, log)
    ensures Distinct(d)
  {
    forall i, j | 0 <= i < j < |d|
      ensures d[i].key != d[j].key
    {
      assert Recency(log, d[i].key) < Recency(log, d[j].key);
    }
  }

  lemma {:induction false} SublistOrdered<K, V>(a: seq<Slot<K, V>>, b: seq<Slot<K, V>>, log: seq<Op<K, V>>)
    requires Sublist(a, b) && InOrder(b, log)
    ensures InOrder(a, log)
    decreases |b|
  {
    if a != [] {
      var rest, last := b[..|b| - 1], b[|b| - 1];
      assert InOrder(rest, log);
      if a[|a| - 1] == last && Sublist(a[..|a| - 1], rest) {
        var most := a[..|a| - 1];
        SublistOrdered(most, rest, log);
        forall i | 0 <= i < |most|
          ensures Recency(log, most[i].key) < Recency(log, last.key)
        {
          SublistMembers(most, rest, most[i]);
          var k :| 0 <= k < |rest| && rest[k] == most[i];
          assert b[k] == most[i];
        }
        forall i, j | 0 <= i < j < |a|
          ensures Recency(log, a[i].key) < Recency(log, a[j].key)
        {
          if j < |most| {
            assert most[i] == a[i] && most[j] == a[j];
          } else {
            assert a[i] == most[i];
          }
        }
      } else {
        SublistOrdered(a, rest, log);
      }
    }
  }

  lemma SublistFaithful<K, V>(a: seq<Slot<K, V>>, b: seq<Slot<K, V>>, log: seq<Op<K, V>>, limits: Limits)
    requires Sublist(a, b) && Faithful(b, log, limits)
    ensures Faithful(a, log, limits)
  {
    SublistOrdered(a, b, log);
    SublistCost(a, b);
    forall s <- a
      ensures Latest(log, s.key).Some? && s == SlotOf(Latest(log, s.key).value, limits)
    {
      SublistMembers(a, b, s);
    }
  }

  // Slots that an operation does not concern are as faithful to the longer history.
  lemma Unconcerned<K, V>(d: seq<Slot<K, V>>, log: seq<Op<K, V>>, op: Op<K, V>, limits: Limits)
    requires Faithful(d, log, limits)
    requires forall s <- d :: !Touches(op, s.key)
    requires !op.Clear? && (op.Invalidate? ==> !Has(d, op.key))
    ensures Faithful(d, log + [op], limits)
  {
    var next := log + [op];
    assert next[..|log|] == log;
    forall s <- d
      ensures Recency(next, s.key) == Recency(log, s.key) && Latest(next, s.key) == Latest(log, s.key)
    {
    }
  }

  // Putting a slot last, as a put or a hit does.
  lemma MadeNewest<K, V>(d: seq<Slot<K, V>>, s: Slot<K, V>, log: seq<Op<K, V>>, op: Op<K, V>, limits: Limits)
    requires InOrder(d, log + [op]) && FromLatest(d, log + [op], limits)
    requires forall t <- d :: t.key != s.key
    requires Touches(op, s.key)
    requires Latest(log + [op], s.key).Some? && s == SlotOf(Latest(log + [op], s.key).value, limits)
    ensures InOrder(d + [s], log + [op]) && FromLatest(d + [s], log + [op], limits)
  {
    var next := log + [op];
    assert next[..|log|] == log;
    assert Recency(next, s.key) == |next|;
    forall i | 0 <= i < |d|
      ensures Recency(next, d[i].key) < |next|
    {
      assert d[i].key != s.key;
      assert !Touches(op, d[i].key);
    }
  }

  lemma WithoutKey<K, V>(d: seq<Slot<K, V>>, key: K)
    ensures forall s <- Without(d, key) :: s.key != key
  {
    forall s <- Without(d, key)
      ensures s.key != key
    {
      WithoutMembers(d, key, s);
    }
  }

  lemma PutFaithful<K, V>(d: seq<Slot<K, V>>, log: seq<Op<K, V>>, op: Op<K, V>, limits: Limits)
    requires Faithful(d, log, limits) && op.Put?
    ensures Faithful(Apply(d, op, limits), log + [op], limits)
  {
    var live := Live(d, op.now);
    var rest := Without(live, op.key);
    LiveSublist(d, op.now);
    SublistFaithful(live, d, log, limits);
    WithoutSublist(live, op.key);
    SublistFaithful(rest, live, log, limits);
    WithoutKey(live, op.key);
    Unconcerned(rest, log, op, limits);
    if limits.Fits(op.nbytes) {
      var s := SlotOf(op, limits);
      MadeNewest(rest, s, log, op, limits);
      var full := rest + [s];
      var i := LongestSuffix(full, limits);
      assert Faithful(full[i..], log + [op], limits);
    }
  }

  lemma GetFaithful<K, V>(d: seq<Slot<K, V>>, log: seq<Op<K, V>>, op: Op<K, V>, limits: Limits)
    requires Faithful(d, log, limits) && op.Get?
    ensures Faithful(Apply(d, op, limits), log + [op], limits)
  {
    hide Faithful, Find, Without;
    MissFaithful(d, log, op, limits);
    FindMember(d, op.key);
    match Find(d, op.key)
    case None => Unconcerned(d, log, op, limits);
    case Some(s) => HitFaithful(d, s, log, op, limits);
  }

  lemma MissFaithful<K, V>(d: seq<Slot<K, V>>, log: seq<Op<K, V>>, op: Op<K, V>, limits: Limits)
    requires Faithful(d, log, limits) && op.Get?
    ensures Faithful(Without(d, op.key), log + [op], limits)
  {
    var rest := Without(d, op.key);
    WithoutSublist(d, op.key);
    SublistFaithful(rest, d, log, limits);
    WithoutKey(d, op.key);
    Unconcerned(rest, log, op, limits);
  }

  lemma HitFaithful<K, V>(d: seq<Slot<K, V>>, s: Slot<K, V>, log: seq<Op<K, V>>, op: Op<K, V>, limits: Limits)
    requires Faithful(d, log, limits) && op.Get? && s in d && s.key == op.key
    ensures Faithful(Without(d, op.key) + [s], log + [op], limits)
  {
    hide Cost, Without;
    var rest := Without(d, op.key);
    MissFaithful(d, log, op, limits);
    assert (log + [op])[..|log|] == log;
    WithoutKey(d, op.key);
    MadeNewest(rest, s, log, op, limits);
    OrderedDistinct(d, log);
    WithoutCost(d, s);
    CostConcat(rest, [s]);
    CostOne(s);
  }

  lemma {:induction false} WithoutCost<K, V>(d: seq<Slot<K, V>>, s: Slot<K, V>)
    requires Distinct(d) && s in d
    ensures Cost(Without(d, s.key)) + s.nbytes == Cost(d)
  {
    var rest, last := d[..|d| - 1], d[|d| - 1];
    assert d == rest + [last];
    if last == s {
      WithoutNone(rest, s.key);
      assert Without(d, s.key) == rest;
    } else {
      var i :| 0 <= i < |d| && d[i] == s;
      assert s in rest && last.key != s.key;
      WithoutCost(rest, s);
      CostConcat(Without(rest, s.key), [last]);
      CostOne(last);
    }
  }

  lemma {:induction false} WithoutNone<K, V>(d: seq<Slot<K, V>>, key: K)
    requires forall s <- d :: s.key != key
    ensures Without(d, key) == d
  {
    if d != [] {
      var rest, last := d[..|d| - 1], d[|d| - 1];
      WithoutNone(rest, key);
      assert last in d;
      assert d == rest + [last];
    }
  }

  lemma OtherFaithful<K, V>(d: seq<Slot<K, V>>, log: seq<Op<K, V>>, op: Op<K, V>, limits: Limits)
    requires Faithful(d, log, limits) && !op.Put? && !op.Get?
    ensures Faithful(Apply(d, op, limits), log + [op], limits)
  {
    var next := Apply(d, op, limits);
    if !op.Clear? {
      assert Sublist(next, d) by {
        match op
        case Peek(key, now) =>
          WithoutSublist(d, key);
          SublistSelf(d);
        case Prune(now) => LiveSublist(d, now);
        case Invalidate(key) => WithoutSublist(d, key);
      }
      SublistFaithful(next, d, log, limits);
      if op.Invalidate? {
        WithoutKey(d, op.key);
      }
      Unconcerned(next, log, op, limits);
    }
  }

  lemma {:induction false} SublistSelf<K, V>(d: seq<Slot<K, V>>)
    ensures Sublist(d, d)
  {
    if d != [] {
      SublistSelf(d[..|d| - 1]);
    }
  }

  // After any history: the slots are in order of last use, each holds the latest put of its
  // key with that put's expiry, no key appears twice, and together they fit the bound.
  lemma {:induction false} CacheIsFaithful<K, V>(log: seq<Op<K, V>>, limits: Limits)
    ensures Faithful(Replay(log, limits), log, limits)
    ensures Distinct(Replay(log, limits))
  {
    if log != [] {
      var before, op := log[..|log| - 1], log[|log| - 1];
      CacheIsFaithful(before, limits);
      var d := Replay(before, limits);
      assert log == before + [op];
      if op.Put? {
        PutFaithful(d, before, op, limits);
      } else if op.Get? {
        GetFaithful(d, before, op, limits);
      } else {
        OtherFaithful(d, before, op, limits);
      }
    }
    OrderedDistinct(Replay(log, limits), log);
  }

  // ---- exactly which keys are still there ----------------------------------------------------

  ghost predicate HasLive<K, V>(d: seq<Slot<K, V>>, key: K, now: real) {
    exists s <- d :: s.key == key && now < s.expires
  }

  // Clock readings never decrease along the history, up to now.
  ghost predicate Clocked<K, V>(log: seq<Op<K, V>>, now: real) {
    log == [] ||
    var before, op := log[..|log| - 1], log[|log| - 1];
    match op
    case Put(_, _, _, t, stamp) => t <= stamp <= now && Clocked(before, t)
    case Invalidate(_) => Clocked(before, now)
    case Clear => Clocked(before, now)
    case _ => op.now <= now && Clocked(before, op.now)
  }

  // The slot of a key does not fit together with what was used since and a new slot.
  ghost predicate Squeezed<K, V>(rest: seq<Slot<K, V>>, key: K, nbytes: nat, limits: Limits) {
    exists n :: 0 <= n < |rest| && rest[n].key == key && Cost(rest[n..]) + nbytes > limits.max > 0
  }

  // Since its latest put the key was refused or evicted for lack of room.
  ghost predicate CrowdedOut<K, V>(log: seq<Op<K, V>>, key: K, limits: Limits) {
    log != [] &&
    var before, op := log[..|log| - 1], log[|log| - 1];
    if op.Put? && op.key == key then op.nbytes > limits.max > 0
    else CrowdedOut(before, key, limits)
         || (op.Put? && (limits.max == 0 || op.nbytes <= limits.max)
             && Squeezed(Without(Live(Replay(before, limits), op.now), op.key), key, op.nbytes, limits))
  }

  lemma {:induction false} ClockedLater<K, V>(log: seq<Op<K, V>>, now: real, later: real)
    requires Clocked(log, now) && now <= later
    ensures Clocked(log, later)
  {
    if log != [] {
      var before, op := log[..|log| - 1], log[|log| - 1];
      if op.Invalidate? || op.Clear? {
        ClockedLater(before, now, later);
      }
    }
  }

  lemma LiveKeeps<K, V>(d: seq<Slot<K, V>>, key: K, t: real, now: real)
    requires t <= now
    ensures HasLive(Live(d, t), key, now) <==> HasLive(d, key, now)
  {
    forall s
      ensures s in Live(d, t) <==> s in d && t < s.expires
    {
      LiveMembers(d, t, s);
    }
    if HasLive(d, key, now) {
      var s :| s in d && s.key == key && now < s.expires;
      assert s in Live(d, t);
    }
  }

  lemma WithoutKeeps<K, V>(d: seq<Slot<K, V>>, other: K, key: K, now: real)
    ensures HasLive(Without(d, other), key, now) <==> key != other && HasLive(d, key, now)
  {
    forall s
      ensures s in Without(d, other) <==> s in d && s.key != other
    {
      WithoutMembers(d, other, s);
    }
    if key != other && HasLive(d, key, now) {
      var s :| s in d && s.key == key && now < s.expires;
      assert s in Without(d, other);
    }
  }

  lemma EvictKeeps<K, V>(rest: seq<Slot<K, V>>, s: Slot<K, V>, limits: Limits, key: K, now: real)
    requires Distinct(rest + [s]) && key != s.key && limits.Fits(s.nbytes)
    ensures HasLive(Evict(rest + [s], limits), key, now)
            <==> HasLive(rest, key, now) && !Squeezed(rest, key, s.nbytes, limits)
  {
    hide Cost, Evict;
    var full := rest + [s];
    var e := Evict(full, limits);
    var i := LongestSuffix(full, limits);
    if HasLive(rest, key, now) {
      var t :| t in rest && t.key == key && now < t.expires;
      var n :| 0 <= n < |rest| && rest[n] == t;
      SurvivesPut(rest, s, limits, n);
      assert Distinct(full[..|rest|]) && full[..|rest|] == rest;
      OnlyAt(rest, n);
      if Has(e, key) {
        var u :| u in e && u.key == key;
        assert u in full;
        KeyDecides(full, u, t);
      }
    }
    if HasLive(e, key, now) {
      var t :| t in e && t.key == key && now < t.expires;
      assert t in full && t != s;
      assert t in rest;
    }
  }

  lemma OnlyAt<K, V>(d: seq<Slot<K, V>>, n: nat)
    requires n < |d| && forall i, j :: 0 <= i < j < |d| ==> d[i].key != d[j].key
    ensures forall m :: 0 <= m < |d| && d[m].key == d[n].key ==> m == n
  {
  }

  lemma KeyDecides<K, V>(d: seq<Slot<K, V>>, a: Slot<K, V>, b: Slot<K, V>)
    requires Distinct(d) && a in d && b in d && a.key == b.key
    ensures a == b
  {
    FindUnique(d, a);
    FindUnique(d, b);
  }

  lemma PutKeeps<K, V>(d: seq<Slot<K, V>>, op: Op<K, V>, limits: Limits, key: K, now: real)
    requires Distinct(d) && op.Put? && op.now <= now && op.key != key
    ensures HasLive(Apply(d, op, limits), key, now)
            <==> HasLive(d, key, now)
                 && !(limits.Fits(op.nbytes)
                      && Squeezed(Without(Live(d, op.now), op.key), key, op.nbytes, limits))
  {
    var live := Live(d, op.now);
    var rest := Without(live, op.key);
    LiveKeeps(d, key, op.now, now);
    WithoutKeeps(live, op.key, key, now);
    if limits.Fits(op.nbytes) {
      DistinctRest(d, op, SlotOf(op, limits));
      EvictKeeps(rest, SlotOf(op, limits), limits, key, now);
    }
  }

  lemma {:induction false} SublistDistinct<K, V>(a: seq<Slot<K, V>>, b: seq<Slot<K, V>>)
    requires Sublist(a, b) && Distinct(b)
    ensures Distinct(a)
    decreases |b|
  {
    if a != [] {
      var rest, last := b[..|b| - 1], b[|b| - 1];
      if a[|a| - 1] == last && Sublist(a[..|a| - 1], rest) {
        var most := a[..|a| - 1];
        SublistDistinct(most, rest);
        forall i | 0 <= i < |most|
          ensures most[i].key != last.key
        {
          SublistMembers(most, rest, most[i]);
        }
        assert a == most + [last];
      } else {
        SublistDistinct(a, rest);
      }
    }
  }

  lemma DistinctRest<K, V>(d: seq<Slot<K, V>>, op: Op<K, V>, s: Slot<K, V>)
    requires Distinct(d) && op.Put? && s.key == op.key
    ensures Distinct(Without(Live(d, op.now), op.key) + [s])
  {
    hide Live, Without;
    var live := Live(d, op.now);
    LiveSublist(d, op.now);
    SublistDistinct(live, d);
    WithoutSublist(live, op.key);
    SublistDistinct(Without(live, op.key), live);
    WithoutKey(live, op.key);
    DistinctSnoc(Without(live, op.key), s);
  }

  lemma DistinctSnoc<K, V>(d: seq<Slot<K, V>>, s: Slot<K, V>)
    requires Distinct(d) && forall t <- d :: t.key != s.key
    ensures Distinct(d + [s])
  {
    forall i, j | 0 <= i < j < |d| + 1
      ensures (d + [s])[i].key != (d + [s])[j].key
    {
      assert (d + [s])[i] == d[i];
    }
  }

  lemma OtherKeeps<K, V>(d: seq<Slot<K, V>>, op: Op<K, V>, limits: Limits, key: K, now: real)
    requires Distinct(d) && (op.Get? || op.Peek? || op.Prune?) && op.now <= now
    ensures HasLive(Apply(d, op, limits), key, now) <==> HasLive(d, key, now)
  {
    if op.Prune? {
      LiveKeeps(d, key, op.now, now);
    } else {
      FindMember(d, op.key);
      WithoutKeeps(d, op.key, key, now);
      match Find(d, op.key)
      case None =>
      case Some(s) =>
        var rest := Without(d, op.key);
        if HasLive(d, op.key, now) {
          var t :| t in d && t.key == op.key && now < t.expires;
          KeyDecides(d, s, t);
          assert s in rest + [s];
        }
        assert forall t <- rest + [s] :: t in rest || t == s;
        assert forall t <- rest :: t in rest + [s];
    }
  }

  // The cache is a timed map: under a clock that does not run backwards, a key has a value
  // now exactly when it was put, not invalidated since, put less than the time to live ago,
  // and not crowded out.
  lemma {:induction false} TimedMap<K, V>(log: seq<Op<K, V>>, limits: Limits, key: K, now: real)
    requires Clocked(log, now)
    ensures HasLive(Replay(log, limits), key, now)
            <==> Latest(log, key).Some? && now < Latest(log, key).value.stamp + limits.ttl
                 && !CrowdedOut(log, key, limits)
  {
    if log != [] {
      var before, op := log[..|log| - 1], log[|log| - 1];
      var d := Replay(before, limits);
      CacheIsFaithful(before, limits);
      if op.Put? && op.key == key {
        PutOwn(d, op, limits, now);
      } else if op.Clear? {
      } else if op.Invalidate? {
        TimedMap(before, limits, key, now);
        WithoutKeeps(d, op.key, key, now);
      } else {
        ClockedLater(before, op.now, now);
        TimedMap(before, limits, key, now);
        if op.Put? {
          PutKeeps(d, op, limits, key, now);
        } else {
          OtherKeeps(d, op, limits, key, now);
        }
      }
    }
  }

  lemma PutOwn<K, V>(d: seq<Slot<K, V>>, op: Op<K, V>, limits: Limits, now: real)
    requires Distinct(d) && op.Put?
    ensures HasLive(Apply(d, op, limits), op.key, now)
            <==> (limits.max == 0 || op.nbytes <= limits.max) && now < op.stamp + limits.ttl
  {
    var live := Live(d, op.now);
    var rest := Without(live, op.key);
    WithoutKey(live, op.key);
    if limits.Fits(op.nbytes) {
      var s := SlotOf(op, limits);
      NewestStays(rest, s, limits);
      var full := rest + [s];
      var i := LongestSuffix(full, limits);
      var e := Evict(full, limits);
      assert s == e[|e| - 1];
      forall t <- e
        ensures t.key == op.key ==> t == s
      {
        assert t in full;
      }
    }
  }
}
