/**
 The TTL and LRU cache as the program has it: an ordered table updated in place, with
 byte accounting and a registry of computations in flight.  The ghost log records the
 operations performed; TimedCache says what the table must then hold.
 */
module Cache {
  import opened Wrappers
  import T = TimedCache

  // The future that the callers of one computation share.
  class Flight<V> {
    var outcome: Option<Result<V, string>>

    constructor ()
      ensures outcome.None?
    {
      outcome := None;
    }

    method Resolve(r: Result<V, string>)
      requires outcome.None?
      modifies this
      ensures outcome == Some(r)
    {
      outcome := Some(r);
    }
  }

  datatype Turn<V> = Hit(value: V) | Follow(flight: Flight<V>) | Lead(flight: Flight<V>)

  // Where a key sits in the table.
  function IndexOf<K(==), V>(d: seq<T.Slot<K, V>>, key: K): (i: Option<nat>)
    ensures i.Some? ==> i.value < |d| && d[i.value].key == key
    ensures i.None? ==> forall s <- d :: s.key != key
  {
    if d == [] then None
    else if d[|d| - 1].key == key then Some(|d| - 1)
    else assert d == d[..|d| - 1] + [d[|d| - 1]]; IndexOf(d[..|d| - 1], key)
  }

  lemma {:induction false} AtIndex<K, V>(d: seq<T.Slot<K, V>>, i: nat)
    requires T.Distinct(d) && i < |d|
    ensures T.Find(d, d[i].key) == Some(d[i])
    ensures T.Without(d, d[i].key) == d[..i] + d[i + 1..]
    ensures T.Cost(d) == T.Cost(d[..i] + d[i + 1..]) + d[i].nbytes
  {
    T.FindUnique(d, d[i]);
    T.WithoutCost(d, d[i]);
    WithoutAt(d, i);
  }

  lemma {:induction false} WithoutAt<K, V>(d: seq<T.Slot<K, V>>, i: nat)
    requires T.Distinct(d) && i < |d|
    ensures T.Without(d, d[i].key) == d[..i] + d[i + 1..]
  {
    var rest, last := d[..|d| - 1], d[|d| - 1];
    if i == |rest| {
      T.WithoutNone(rest, last.key);
      assert d[i + 1..] == [];
    } else {
      WithoutAt(rest, i);
      assert d[i + 1..] == rest[i + 1..] + [last];
    }
  }

  lemma Absent<K, V>(d: seq<T.Slot<K, V>>, key: K)
    requires forall s <- d :: s.key != key
    ensures T.Find(d, key).None? && T.Without(d, key) == d
  {
    T.FindMember(d, key);
    T.WithoutNone(d, key);
  }

  class TTLCache<K(==), V> {
    const limits: T.Limits
    var d: seq<T.Slot<K, V>>
    var bytes: int
    var inflight: map<K, Flight<V>>
    ghost var log: seq<T.Op<K, V>>

    ghost predicate Valid()
      reads `d, `bytes, `log
    {
      d == T.Replay(log, limits) && bytes == T.Cost(d)
    }

    constructor (ttl: real, maxBytes: nat)
      ensures Valid() && limits == T.Limits(ttl, maxBytes) && log == [] && inflight == map[]
    {
      limits := T.Limits(ttl, maxBytes);
      d, bytes, inflight, log := [], 0, map[], [];
    }

    // The table is distinct and fits; the rest of what a history says is in TimedCache.
    lemma Sound()
      requires Valid()
      ensures d == T.Replay(log, limits) && bytes == T.Cost(d)
      ensures T.Distinct(d) && T.Faithful(d, log, limits)
      ensures limits.max == 0 || bytes <= limits.max
    {
      T.CacheIsFaithful(log, limits);
    }

    // One more operation: the table it leaves is the one its history prescribes.
    twostate lemma Recorded(op: T.Op<K, V>)
      requires old(Valid()) && log == old(log) + [op]
      requires d == T.Apply(old(d), op, limits) && bytes == T.Cost(d)
      ensures Valid()
    {
      assert log[..|log| - 1] == old(log);
    }

    method Remove(i: nat)
      requires i < |d| && T.Distinct(d) && bytes == T.Cost(d)
      modifies `d, `bytes
      ensures d == T.Without(old(d), old(d)[i].key) && bytes == T.Cost(d)
    {
      AtIndex(d, i);
      bytes := bytes - d[i].nbytes;
      d := d[..i] + d[i + 1..];
    }

    method Get(key: K, now: real) returns (r: Option<V>)
      requires Valid()
      modifies `d, `bytes, `log
      ensures Valid() && log == old(log) + [T.Get(key, now)]
      ensures r == Seen(old(d), key, now)
      ensures r.Some? ==>
        var put := T.Latest(old(log), key);
        put.Some? && r.value == put.value.value && now < put.value.stamp + limits.ttl
      ensures r.Some? ==> d != [] && d[|d| - 1] == T.SlotOf(T.Latest(old(log), key).value, limits)
      ensures forall s: T.Slot<K, V> :: s.key != key ==> (s in d <==> s in old(d))
      ensures T.Clocked(old(log), now) ==>
        var put := T.Latest(old(log), key);
        r.Some? <==> put.Some? && now < put.value.stamp + limits.ttl && !T.CrowdedOut(old(log), key, limits)
    {
      hide *;
      Sound();
      GetMeans(d, log, limits, key, now);
      ghost var op := T.Op<K, V>.Get(key, now);
      r := Touch(key, now);
      log := log + [op];
      Recorded(op);
    }

    // Read one entry, dropping it when expired and making it the newest when not.
    method Touch(key: K, now: real) returns (r: Option<V>)
      requires T.Distinct(d) && bytes == T.Cost(d)
      modifies `d, `bytes
      ensures d == T.Apply(old(d), T.Get(key, now), limits) && bytes == T.Cost(d)
      ensures r == Seen(old(d), key, now)
      ensures r.Some? ==> T.Find(old(d), key).Some? && d != [] && d[|d| - 1] == T.Find(old(d), key).value
      ensures forall s: T.Slot<K, V> :: s.key != key ==> (s in d <==> s in old(d))
    {
      OthersStay(d, key);
      match IndexOf(d, key) {
        case None =>
          Absent(d, key);
          r := None;
        case Some(i) =>
          var e := d[i];
          AtIndex(d, i);
          Remove(i);
          if now >= e.expires {
            r := None;
          } else {
            T.CostConcat(d, [e]);
            T.CostOne(e);
            d, bytes := d + [e], bytes + e.nbytes;
            r := Some(e.value);
          }
      }
    }

    // Seconds of life left; the order of use is not touched.
    method ExpiresIn(key: K, now: real) returns (r: Option<real>)
      requires Valid()
      modifies `d, `bytes, `log
      ensures Valid() && log == old(log) + [T.Peek(key, now)]
      ensures r == LifeLeft(old(d), key, now)
      ensures r.Some? ==> d == old(d)
      ensures r.Some? ==>
        var put := T.Latest(old(log), key);
        put.Some? && r == Some(put.value.stamp + limits.ttl - now) && r.value > 0.0
      ensures T.Clocked(old(log), now) ==>
        var put := T.Latest(old(log), key);
        r.Some? <==> put.Some? && now < put.value.stamp + limits.ttl && !T.CrowdedOut(old(log), key, limits)
      ensures forall k :: T.Recency(log, k) == T.Recency(old(log), k)
    {
      hide *;
      ghost var op := T.Op<K, V>.Peek(key, now);
      Sound();
      GetMeans(d, log, limits, key, now);
      r := Glance(key, now);
      log := log + [op];
      Recorded(op);
      LookingIsNoUse(old(log), op);
    }

    method Glance(key: K, now: real) returns (r: Option<real>)
      requires T.Distinct(d) && bytes == T.Cost(d)
      modifies `d, `bytes
      ensures d == T.Apply(old(d), T.Peek(key, now), limits) && bytes == T.Cost(d)
      ensures r == LifeLeft(old(d), key, now)
      ensures r.Some? ==> d == old(d)
    {
      match IndexOf(d, key) {
        case None =>
          Absent(d, key);
          r := None;
        case Some(i) =>
          AtIndex(d, i);
          var remaining := d[i].expires - now;
          if remaining <= 0.0 {
            Remove(i);
            r := None;
          } else {
            r := Some(remaining);
          }
      }
    }

    // Store a value unless it alone exceeds the bound, evicting from the oldest.
    method Put(key: K, value: V, nbytes: nat, now: real, stamp: real) returns (cached: bool)
      requires Valid()
      modifies `d, `bytes, `log
      ensures Valid() && log == old(log) + [T.Put(key, value, nbytes, now, stamp)]
      ensures cached <==> limits.max == 0 || nbytes <= limits.max
      ensures d ==
        var rest := Others(old(d), key, now);
        if cached then T.Evict(rest + [T.Slot(key, value, stamp + limits.ttl, nbytes)], limits) else rest
      ensures cached ==> d != [] && d[|d| - 1] == T.Slot(key, value, stamp + limits.ttl, nbytes)
      ensures forall s :: s in Others(old(d), key, now) <==> s in old(d) && now < s.expires && s.key != key
      ensures cached ==>
        LongestThatFits(d, Others(old(d), key, now) + [T.Slot(key, value, stamp + limits.ttl, nbytes)], limits.max)
    {
      hide *;
      ghost var op := T.Op<K, V>.Put(key, value, nbytes, now, stamp);
      Sound();
      ghost var all := Others(d, key, now) + [T.Slot(key, value, stamp + limits.ttl, nbytes)];
      EvictKeepsLongest(all, limits);
      cached := Store(key, value, nbytes, now, stamp);
      log := log + [op];
      Recorded(op);
      OthersAre(old(d), key, now);
    }

    method Store(key: K, value: V, nbytes: nat, now: real, stamp: real) returns (cached: bool)
      requires T.Distinct(d) && bytes == T.Cost(d)
      modifies `d, `bytes
      ensures d == T.Apply(old(d), T.Put(key, value, nbytes, now, stamp), limits) && bytes == T.Cost(d)
      ensures cached <==> limits.max == 0 || nbytes <= limits.max
      ensures d ==
        var rest := Others(old(d), key, now);
        if cached then T.Evict(rest + [T.Slot(key, value, stamp + limits.ttl, nbytes)], limits) else rest
      ensures cached ==> d != [] && d[|d| - 1] == T.Slot(key, value, stamp + limits.ttl, nbytes)
    {
      hide T.Live, T.Without, T.Cost, T.Evict, T.Find;
      PruneExpired(now);
      match IndexOf(d, key) {
        case None => Absent(d, key);
        case Some(i) => Remove(i);
      }
      if limits.max > 0 && nbytes > limits.max {
        return false;
      }
      var e := T.Slot(key, value, stamp + limits.ttl, nbytes);
      T.CostConcat(d, [e]);
      T.CostOne(e);
      T.NewestStays(d, e, limits);
      d, bytes := d + [e], bytes + nbytes;
      EvictOldest();
      cached := true;
    }

    method EvictOldest()
      requires bytes == T.Cost(d)
      modifies `d, `bytes
      ensures d == T.Evict(old(d), limits) && bytes == T.Cost(d)
    {
      while limits.max > 0 && bytes > limits.max
        invariant bytes == T.Cost(d) && T.Evict(d, limits) == T.Evict(old(d), limits)
        decreases |d|
      {
        T.CostFrom(d, 0);
        assert d[0..] == d;
        bytes := bytes - d[0].nbytes;
        d := d[1..];
      }
    }

    method PruneExpired(now: real)
      requires T.Distinct(d) && bytes == T.Cost(d)
      modifies `d, `bytes
      ensures d == T.Live(old(d), now) && bytes == T.Cost(d) && T.Distinct(d)
      ensures forall s :: s in d <==> s in old(d) && now < s.expires
    {
      var kept: seq<T.Slot<K, V>> := [];
      for i := 0 to |d|
        invariant d == old(d)
        invariant kept == T.Live(d[..i], now) && bytes == T.Cost(kept) + T.Cost(d[i..])
      {
        assert d[..i + 1][..i] == d[..i];
        T.CostFrom(d, i);
        if now >= d[i].expires {
          bytes := bytes - d[i].nbytes;
        } else {
          T.CostConcat(kept, [d[i]]);
          T.CostOne(d[i]);
          kept := kept + [d[i]];
        }
      }
      assert d[..|d|] == d;
      T.LiveSublist(d, now);
      forall s
        ensures s in kept <==> s in d && now < s.expires
      {
        T.LiveMembers(d, now, s);
      }
      T.SublistDistinct(kept, d);
      d := kept;
    }

    method Prune(now: real)
      requires Valid()
      modifies `d, `bytes, `log
      ensures Valid() && log == old(log) + [T.Op.Prune(now)]
      ensures d == T.Live(old(d), now)
      ensures forall s :: s in d <==> s in old(d) && now < s.expires
    {
      Sound();
      PruneExpired(now);
      log := log + [T.Op.Prune(now)];
      Recorded(T.Op.Prune(now));
    }

    // Forget one key, or everything.
    method Invalidate(key: Option<K>)
      requires Valid()
      modifies `d, `bytes, `log
      ensures Valid() && log == old(log) + [if key.None? then T.Clear else T.Invalidate(key.value)]
      ensures d == if key.None? then [] else T.Without(old(d), key.value)
      ensures forall s :: s in d <==> s in old(d) && key.Some? && s.key != key.value
    {
      hide T.Without, T.Replay;
      Sound();
      match key {
        case None =>
          d, bytes := [], 0;
          log := log + [T.Op<K, V>.Clear];
          Recorded(T.Op<K, V>.Clear);
        case Some(k) =>
          ForgetOne(k);
          log := log + [T.Op<K, V>.Invalidate(k)];
          Recorded(T.Op<K, V>.Invalidate(k));
          OthersStay(old(d), k);
      }
    }

    method ForgetOne(key: K)
      requires T.Distinct(d) && bytes == T.Cost(d)
      modifies `d, `bytes
      ensures d == T.Without(old(d), key) && bytes == T.Cost(d)
    {
      match IndexOf(d, key) {
        case None => Absent(d, key);
        case Some(i) => Remove(i);
      }
    }

    // ---- single flight -------------------------------------------------------------------

    // The start of get_or_compute: a hit, a computation to wait for, or one to run.
    method Begin(key: K, now: real) returns (turn: Turn<V>)
      requires Valid()
      modifies `d, `bytes, `log, `inflight
      ensures Valid() && log == old(log) + [T.Get(key, now)]
      ensures turn.Hit? ==>
        var put := T.Latest(old(log), key);
        put.Some? && turn.value == put.value.value && now < put.value.stamp + limits.ttl
      ensures Seen(old(d), key, now) == if turn.Hit? then Some(turn.value) else None
      ensures turn.Follow? ==> key in old(inflight) && turn.flight == old(inflight)[key]
      ensures turn.Lead? ==> key !in old(inflight) && fresh(turn.flight) && turn.flight.outcome.None?
      ensures inflight == if turn.Lead? then old(inflight)[key := turn.flight] else old(inflight)
    {
      hide *;
      var v := Get(key, now);
      if v.Some? {
        return Hit(v.value);
      }
      if key in inflight {
        turn := Follow(inflight[key]);
      } else {
        var flight := new Flight<V>();
        inflight := inflight[key := flight];
        turn := Lead(flight);
      }
    }

    // The end of a computation that the caller led: the value is cached, the flight cleared
    // and resolved; a failure only clears and resolves it.
    method Finish(key: K, flight: Flight<V>, outcome: Result<(V, nat), string>, now: real, stamp: real)
      requires Valid() && key in inflight && inflight[key] == flight && flight.outcome.None?
      modifies `d, `bytes, `log, `inflight, flight
      ensures Valid()
      ensures log == old(log) + if outcome.Failure? then []
                                else [T.Put(key, outcome.value.0, outcome.value.1, now, stamp)]
      ensures inflight == old(inflight) - {key}
      ensures flight.outcome == Some(if outcome.Failure? then Failure(outcome.error) else Success(outcome.value.0))
    {
      match outcome {
        case Failure(e) =>
          inflight := inflight - {key};
          flight.Resolve(Failure(e));
          assert log == old(log) + [];
        case Success(v) =>
          var cached := Put(key, v.0, v.1, now, stamp);
          inflight := inflight - {key};
          flight.Resolve(Success(v.0));
      }
    }
  }

  lemma OthersStay<K, V>(d: seq<T.Slot<K, V>>, key: K)
    ensures forall s :: s in T.Without(d, key) <==> s in d && s.key != key
  {
    forall s
      ensures s in T.Without(d, key) <==> s in d && s.key != key
    {
      T.WithoutMembers(d, key, s);
    }
  }

  // What is kept is the end of the list: all of it when it fits or nothing bounds it, and
  // otherwise the longest end that fits.
  ghost predicate LongestThatFits<K, V>(kept: seq<T.Slot<K, V>>, all: seq<T.Slot<K, V>>, max: nat) {
    && |kept| <= |all| && kept == all[|all| - |kept|..]
    && (if max == 0 then kept == all else T.Cost(kept) <= max)
    && forall j :: 0 <= j < |all| - |kept| ==> T.Cost(all[j..]) > max
  }

  lemma EvictKeepsLongest<K, V>(all: seq<T.Slot<K, V>>, limits: T.Limits)
    ensures LongestThatFits(T.Evict(all, limits), all, limits.max)
  {
    var i := T.LongestSuffix(all, limits);
    assert all[0..] == all;
  }

  lemma OthersAre<K, V>(d: seq<T.Slot<K, V>>, key: K, now: real)
    ensures forall s :: s in Others(d, key, now) <==> s in d && now < s.expires && s.key != key
  {
    forall s
      ensures s in Others(d, key, now) <==> s in d && now < s.expires && s.key != key
    {
      T.LiveMembers(d, now, s);
      T.WithoutMembers(T.Live(d, now), key, s);
    }
  }

  // The slots that share the table with a newly put one.
  ghost function Others<K, V>(d: seq<T.Slot<K, V>>, key: K, now: real): seq<T.Slot<K, V>> {
    T.Without(T.Live(d, now), key)
  }

  lemma LookingIsNoUse<K, V>(log: seq<T.Op<K, V>>, op: T.Op<K, V>)
    requires op.Peek?
    ensures forall k :: T.Recency(log + [op], k) == T.Recency(log, k)
  {
    assert (log + [op])[..|log|] == log;
  }

  ghost function Seen<K, V>(d: seq<T.Slot<K, V>>, key: K, now: real): Option<V> {
    match T.Find(d, key)
    case None => None
    case Some(s) => if now < s.expires then Some(s.value) else None
  }

  // How long what a lookup sees will still be there.
  ghost function LifeLeft<K, V>(d: seq<T.Slot<K, V>>, key: K, now: real): (r: Option<real>)
    ensures r.Some? ==> r.value > 0.0
    ensures r.Some? <==> Seen(d, key, now).Some?
  {
    match T.Find(d, key)
    case None => None
    case Some(s) => if now < s.expires then Some(s.expires - now) else None
  }

  // What a lookup sees, in terms of the history.
  lemma GetMeans<K, V>(d: seq<T.Slot<K, V>>, log: seq<T.Op<K, V>>, limits: T.Limits, key: K, now: real)
    requires d == T.Replay(log, limits)
    ensures T.Find(d, key).Some? ==>
      T.Latest(log, key).Some? && T.Find(d, key).value == T.SlotOf(T.Latest(log, key).value, limits)
    ensures LifeLeft(d, key, now).Some? ==>
      T.Latest(log, key).Some? && LifeLeft(d, key, now).value == T.Latest(log, key).value.stamp + limits.ttl - now
    ensures Seen(d, key, now).Some? ==>
      var put := T.Latest(log, key);
      put.Some? && Seen(d, key, now).value == put.value.value && now < put.value.stamp + limits.ttl
    ensures T.Clocked(log, now) ==>
      var put := T.Latest(log, key);
      Seen(d, key, now).Some? <==>
        put.Some? && now < put.value.stamp + limits.ttl && !T.CrowdedOut(log, key, limits)
  {
    hide T.Replay, T.CrowdedOut, T.Clocked, T.Cost, T.Find;
    T.CacheIsFaithful(log, limits);
    T.FindMember(d, key);
    SeenIsLive(d, key, now);
    if T.Clocked(log, now) {
      T.TimedMap(log, limits, key, now);
    }
  }

  lemma SeenIsLive<K, V>(d: seq<T.Slot<K, V>>, key: K, now: real)
    requires T.Distinct(d)
    ensures Seen(d, key, now).Some? <==> T.HasLive(d, key, now)
  {
    hide T.Find;
    T.FindMember(d, key);
    if T.HasLive(d, key, now) {
      var s :| s in d && s.key == key && now < s.expires;
      T.FindUnique(d, s);
    }
  }
}
