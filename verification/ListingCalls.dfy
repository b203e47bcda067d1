/**
 One call of the listing service that nobody interferes with, as a run of the listing
 protocol: from the request's arrival to its answer, on the cache and the registry of
 flights that the service holds.
 */
module ListingCalls {
  import opened Wrappers
  import opened Paths
  import opened RollupSpec
  import opened ListingSpec
  import opened Cache
  import opened Listings
  import opened ListingStages
  import T = TimedCache
  import P = ListingProtocol

  type Slots = seq<T.Slot<Key, ListingEntry>>

  // ---- the table of the cache as the protocol sees it ---------------------------------------

  ghost function Keys(d: Slots): set<Key> { set s <- d :: s.key }

  ghost function At(d: Slots, key: Key): Listing {
    match T.Find(d, key)
    case None => Listing([], false)
    case Some(s) => s.value.listing
  }

  ghost function Cached(d: Slots): map<Key, Listing> { map k <- Keys(d) :: At(d, k) }

  lemma CachedSlot(d: Slots, s: T.Slot<Key, ListingEntry>)
    requires T.Distinct(d) && s in d
    ensures s.key in Cached(d) && Cached(d)[s.key] == s.value.listing
  {
    T.FindUnique(d, s);
  }

  lemma CachedFound(d: Slots, key: Key)
    ensures key in Cached(d) <==> T.Find(d, key).Some?
  {
    T.FindMember(d, key);
  }

  // Dropping slots drops entries.
  lemma FewerSlots(a: Slots, b: Slots)
    requires T.Distinct(a) && T.Distinct(b) && forall s <- a :: s in b
    ensures Submap(Cached(a), Cached(b))
  {
    hide T.Distinct;
    forall k <- Cached(a)
      ensures k in Cached(b) && Cached(a)[k] == Cached(b)[k]
    {
      var s :| s in a && s.key == k;
      CachedSlot(a, s);
      CachedSlot(b, s);
    }
  }

  lemma NotHeld(d: Slots, key: Key)
    requires !T.Has(d, key)
    ensures forall s <- d :: s.key != key
  {
  }

  lemma LookSlots(d: Slots, op: T.Op<Key, ListingEntry>, limits: T.Limits)
    requires op.Get? || op.Peek?
    ensures var e := T.Apply(d, op, limits);
            && (forall s <- e :: s in d)
            && (match Seen(d, op.key, op.now)
                case None => forall s <- e :: s.key != op.key
                case Some(_) => T.Find(d, op.key).value in e && T.Find(d, op.key).value in d)
  {
    hide T.Find, T.Without, T.Has;
    T.FindMember(d, op.key);
    forall s
      ensures s in T.Without(d, op.key) <==> s in d && s.key != op.key
    {
      T.WithoutMembers(d, op.key, s);
    }
    match T.Find(d, op.key)
    case None => NotHeld(d, op.key);
    case Some(s) =>
      assert s in T.Without(d, op.key) + [s];
      assert s in d;
      forall x <- T.Apply(d, op, limits)
        ensures x in d
      {
        assert x in d || x in T.Without(d, op.key) || x == s;
        T.WithoutMembers(d, op.key, x);
      }
  }

  // Looking a key up keeps its entry exactly when it is seen; no other entry is made.
  lemma LookedUp(log: seq<T.Op<Key, ListingEntry>>, op: T.Op<Key, ListingEntry>, limits: T.Limits)
    requires op.Get? || op.Peek?
    ensures var d, e := T.Replay(log, limits), T.Replay(log + [op], limits);
            && Submap(Cached(e), Cached(d))
            && (match Seen(d, op.key, op.now)
                case None => op.key !in Cached(e)
                case Some(entry) => op.key in Cached(e) && Cached(e)[op.key] == entry.listing)
  {
    hide T.Replay, T.Find, T.Distinct, T.Apply, Cached;
    var d, e := T.Replay(log, limits), T.Replay(log + [op], limits);
    T.CacheIsFaithful(log, limits);
    T.CacheIsFaithful(log + [op], limits);
    ReplayNext(log, op, limits);
    LookSlots(d, op, limits);
    FewerSlots(e, d);
    match Seen(d, op.key, op.now)
    case Some(_) =>
      T.FindMember(d, op.key);
      CachedSlot(e, T.Find(d, op.key).value);
    case None =>
      T.FindMember(e, op.key);
      CachedFound(e, op.key);
  }

  // Putting an entry makes no other, and makes this one exactly when it fits the bound.
  lemma PutIn(log: seq<T.Op<Key, ListingEntry>>, op: T.Op<Key, ListingEntry>, limits: T.Limits)
    requires op.Put?
    ensures var d, e := T.Replay(log, limits), T.Replay(log + [op], limits);
            && Submap(Cached(e) - {op.key}, Cached(d))
            && (op.key in Cached(e) <==> limits.max == 0 || op.nbytes <= limits.max)
            && (op.key in Cached(e) ==> Cached(e)[op.key] == op.value.listing)
  {
    hide T.Replay, T.Find, T.Without, T.Distinct, T.Live, T.Evict, Cached;
    var d, e := T.Replay(log, limits), T.Replay(log + [op], limits);
    T.CacheIsFaithful(log, limits);
    T.CacheIsFaithful(log + [op], limits);
    ReplayNext(log, op, limits);
    var rest, slot := T.Without(T.Live(d, op.now), op.key), T.SlotOf(op, limits);
    forall s
      ensures s in rest <==> s in d && op.now < s.expires && s.key != op.key
    {
      T.LiveMembers(d, op.now, s);
      T.WithoutMembers(T.Live(d, op.now), op.key, s);
    }
    if limits.Fits(op.nbytes) {
      var i := T.LongestSuffix(rest + [slot], limits);
      T.NewestStays(rest, slot, limits);
      assert forall s <- e :: s in rest + [slot];
      assert slot in e;
      CachedSlot(e, slot);
    } else {
      T.FindMember(e, op.key);
      CachedFound(e, op.key);
    }
    forall k <- Cached(e) - {op.key}
      ensures k in Cached(d) && Cached(e)[k] == Cached(d)[k]
    {
      CachedFound(e, k);
      T.FindMember(e, k);
      var s := T.Find(e, k).value;
      CachedSlot(e, s);
      CachedSlot(d, s);
    }
  }

  // ---- what the service does to its cache ------------------------------------------------------------

  ghost function After(log: seq<T.Op<Key, ListingEntry>>, limits: T.Limits): map<Key, Listing> {
    Cached(T.Replay(log, limits))
  }

  // What a computation finds in the cache decides as the protocol does.
  lemma LookDecides(s: P.State, key: Key, log: seq<T.Op<Key, ListingEntry>>, limits: T.Limits, t1: real)
    requires s.cache == After(log, limits)
    ensures var d, seen := T.Replay(log, limits), After(log + LookOps(key, t1), limits);
            && Submap(seen, s.cache)
            && (P.Derivable(s.(cache := seen), key) <==> Derives(d, key, t1))
            && (Derives(d, key, t1) ==> P.Derived(s.(cache := seen), key) == DerivedFrom(d, key, t1))
  {
    hide T.Replay, Cached, Select;
    if key.Filtered() {
      LookedUp(log, T.Get(key.Whole(), t1), limits);
    } else {
      assert log + [] == log;
    }
  }

  // An answer is what the contract of the service says of it.
  ghost predicate Kept(s: P.State, key: Key, log: seq<T.Op<Key, ListingEntry>>, limits: T.Limits, r: Listed,
                       t0: real, t1: real)
  {
    var d, e := T.Replay(log, limits), T.Replay(log + [T.Get(key, t0)], limits);
    && Seen(d, key, t0) == (if r.Found? && r.cached then Some(r.entry) else None)
    && (r.Found? ==> Names(s.catalog, s.cap, key, r.entry.listing))
    && (r.Joined? ==> key in s.inflight) && (r.Led() ==> key !in s.inflight)
    && (r.Led() && Derives(e, key, t1) ==> r.Found? && r.entry.listing == DerivedFrom(e, key, t1))
  }

  // Where a request stands when its call is over: answered, or following a flight.
  ghost function Ends(s: P.State, key: Key, r: Listed): P.Pc
    requires r.Joined? ==> key in s.inflight
  {
    match r
    case Found(entry, _) => P.Done(P.Value(entry.listing))
    case Failed(_) => P.Done(P.Error)
    case Joined(_) => P.Follow(s.inflight[key])
  }

  lemma BaseRuns(s: P.State, id: P.ThreadId, key: Key, log: seq<T.Op<Key, ListingEntry>>, limits: T.Limits, r: Listed,
                 nbytes: nat, t0: real, t1: real, t2: real, t3: real)
    returns (events: seq<P.Event>, t: P.State)
    requires s.cache == After(log, limits) && Kept(s, key, log, limits, r, t0, t1)
    requires id !in s.threads && key.path !in s.registry && s.free > 0
    ensures Goes(s, events, t, id)
    ensures events != [] && events[0] == P.Spawn(id, P.Interactive, key.path, key.filter, key.name)
    ensures t.cache == After(log + [T.Get(key, t0)]
                             + if r.Led() then LedOps(key, r, nbytes, t1, t2, t3) else [], limits)
    ensures t.inflight == s.inflight
    ensures t.threads[id].kind.Interactive? && t.threads[id].key == key && t.threads[id].pc == Ends(s, key, r)
  {
    hide Goes, T.Replay, Cached, Submap, Names, Derives, DerivedFrom, LedOps;
    var looked := log + [T.Get(key, t0)];
    var cache := After(looked, limits);
    LookedUp(log, T.Get(key, t0), limits);
    events := LooksUp(s, id, P.Interactive, key, cache, true);
    t := s.(cache := cache);
    if r.Led() {
      var more;
      more, t := LedRuns(t, id, key, looked, limits, r, nbytes, t1, t2, t3);
      GoesOn(s, events, In(s.(cache := cache), id, P.Interactive, key, P.JoinFlight, None), more, t, id);
      events := events + more;
    } else {
      assert looked + [] == looked;
      if r.Joined? {
        Joins(t, id, P.Interactive, key);
        var f := s.inflight[key];
        GoesOn(s, events, In(t, id, P.Interactive, key, P.JoinFlight, None), [P.Join(id)],
               In(t, id, P.Interactive, key, P.Follow(f), Some(f)), id);
        events, t := events + [P.Join(id)], In(t, id, P.Interactive, key, P.Follow(f), Some(f));
      } else {
        t := In(t, id, P.Interactive, key, Looking(t, P.Interactive, key, true), None);
      }
    }
  }

  lemma LedRuns(s: P.State, id: P.ThreadId, key: Key, log: seq<T.Op<Key, ListingEntry>>, limits: T.Limits, r: Listed,
                nbytes: nat, t1: real, t2: real, t3: real)
    returns (events: seq<P.Event>, t: P.State)
    requires s.cache == After(log, limits) && r.Led() && key !in s.inflight && s.free > 0
    requires r.Found? ==> Names(s.catalog, s.cap, key, r.entry.listing)
    requires var d := T.Replay(log, limits);
             Derives(d, key, t1) ==> r.Found? && r.entry.listing == DerivedFrom(d, key, t1)
    ensures Goes(In(s, id, P.Interactive, key, P.JoinFlight, None), events, t, id)
    ensures t.cache == After(log + LedOps(key, r, nbytes, t1, t2, t3), limits) && t.inflight == s.inflight
    ensures t.threads[id] == P.Thread(P.Interactive, key, Ends(s, key, r), Some(id))
  {
    hide Goes, T.Replay, Cached, Submap, Names, Derives, DerivedFrom, LookOps;
    var before := log + LookOps(key, t1);
    var seen := After(before, limits);
    var o := if r.Found? then P.Value(r.entry.listing) else P.Error;
    LookDecides(s, key, log, limits, t1);
    var after := log + LedOps(key, r, nbytes, t1, t2, t3);
    if r.Found? {
      var put := T.Put(key, r.entry, nbytes, t2, t3);
      PutIn(before, put, limits);
      assert after == before + [put];
    } else {
      assert after == before;
    }
    events, t := Led(s, id, key, seen, o, After(after, limits));
  }

  // ---- a refresh ---------------------------------------------------------------------------------------

  lemma FreshLooks(log: seq<T.Op<Key, ListingEntry>>, limits: T.Limits, key: Key, t0: real, t1: real, minTtl: real)
    ensures var d := T.Replay(log, limits);
            var cache := After(log + FreshOps(d, key, t0, t1, minTtl), limits);
            && Submap(cache, Cached(d))
            && (LongLived(d, key, t0, t1, minTtl) ==>
                  key in cache && cache[key] == Seen(d, key, t1).value.listing)
  {
    hide T.Replay, T.Find, Cached, Submap;
    var d := T.Replay(log, limits);
    var peeked := log + [T.Peek(key, t0)];
    LookedUp(log, T.Peek(key, t0), limits);
    if LifeLeft(d, key, t0).Some? && LifeLeft(d, key, t0).value >= minTtl {
      ReplayNext(log, T.Peek(key, t0), limits);
      assert T.Replay(peeked, limits) == d;
      LookedUp(peeked, T.Get(key, t1), limits);
      SubmapTrans(After(peeked + [T.Get(key, t1)], limits), After(peeked, limits), Cached(d));
      assert log + ([T.Peek(key, t0)] + [T.Get(key, t1)]) == peeked + [T.Get(key, t1)];
    } else {
      assert FreshOps(d, key, t0, t1, minTtl) == [T.Peek(key, t0)];
    }
  }

  // A warm request that does not use what is cached: it queries and puts the answer.
  lemma Refreshed(s: P.State, id: P.ThreadId, key: Key, o: P.Outcome, cache: map<Key, Listing>)
    returns (events: seq<P.Event>)
    requires s.free > 0 && P.Honest(s.catalog, s.cap, key, o) && Leaves(s.cache, key, o, cache)
    ensures Goes(In(s, id, P.Warm, key, P.AwaitGate, None), events,
                 In(s.(cache := cache), id, P.Warm, key, P.Done(o), None), id)
  {
    hide Goes, P.Honest, Stores;
    Queries(s, id, P.Warm, key, None, o);
    events := [P.Acquire(id), P.Answer(id, o)];
    if o.Value? {
      var more := Stored(s, id, P.Warm, key, None, o.listing, cache);
      GoesOn(In(s, id, P.Warm, key, P.AwaitGate, None), events, In(s, id, P.Warm, key, P.Store(o.listing), None), more,
             In(s.(cache := cache), id, P.Warm, key, P.Done(o), None), id);
      events := events + more;
    }
  }

  lemma WarmRuns(s: P.State, id: P.ThreadId, key: Key, log: seq<T.Op<Key, ListingEntry>>, limits: T.Limits,
                 o: P.Outcome, put: Option<ListingEntry>, minTtl: real, nbytes: nat, t0: real, t1: real, t2: real,
                 t3: real)
    returns (events: seq<P.Event>, t: P.State)
    requires s.cache == After(log, limits) && key == key.Whole() && P.Honest(s.catalog, s.cap, key, o)
    requires id !in s.threads && key.path !in s.registry && s.free > 0
    requires var d := T.Replay(log, limits);
             if LongLived(d, key, t0, t1, minTtl) then put.None? && o == P.Value(Seen(d, key, t1).value.listing)
             else put.Some? == o.Value? && (put.Some? ==> o.listing == put.value.listing)
    ensures Goes(s, events, t, id)
    ensures events != [] && events[0] == P.Spawn(id, P.Warm, key.path, key.filter, key.name)
    ensures t.cache == After(log + FreshOps(T.Replay(log, limits), key, t0, t1, minTtl)
                             + if put.Some? then [T.Put(key, put.value, nbytes, t2, t3)] else [], limits)
    ensures t.inflight == s.inflight && t.threads[id] == P.Thread(P.Warm, key, P.Done(o), None)
  {
    hide Goes, T.Replay, Cached, Submap, P.Honest, LongLived, FreshOps;
    var d := T.Replay(log, limits);
    var looked := log + FreshOps(d, key, t0, t1, minTtl);
    var kept := LongLived(d, key, t0, t1, minTtl);
    FreshLooks(log, limits, key, t0, t1, minTtl);
    var found := s.(cache := After(looked, limits));
    events := LooksUp(s, id, P.Warm, key, found.cache, kept);
    assert looked + [] == looked;
    if kept {
      t := In(found, id, P.Warm, key, P.Done(o), None);
    } else {
      var after := looked + if put.Some? then [T.Put(key, put.value, nbytes, t2, t3)] else [];
      if put.Some? {
        PutIn(looked, T.Put(key, put.value, nbytes, t2, t3), limits);
      }
      var more := Refreshed(found, id, key, o, After(after, limits));
      t := In(found.(cache := After(after, limits)), id, P.Warm, key, P.Done(o), None);
      GoesOn(s, events, In(found, id, P.Warm, key, P.AwaitGate, None), more, t, id);
      events := events + more;
    }
  }

  // ---- the calls themselves ----------------------------------------------------------------------------

  // The protocol state describes the service: its catalog, the entries of its cache and the
  // keys that computations are in flight for.
  ghost predicate Stands(service: ListingService, s: P.State)
    reads service, service.cache
  {
    && s.catalog == service.catalog && s.cap == service.cap
    && s.cache == Cached(service.cache.d) && s.inflight.Keys == service.cache.inflight.Keys
  }

  // A new service stands for the initial state.
  lemma StandsAtFirst(service: ListingService, permits: nat)
    requires service.cache.Valid() && service.cache.log == [] && service.cache.inflight == map[]
    ensures Stands(service, P.Init(service.catalog, service.cap, permits))
  {
  }

  // A request for a listing while no prefetch of its directory is in flight and the gate has a
  // permit: what the service does is a run of the protocol, up to the answer or, when another
  // caller leads, up to the wait for it.
  method Request(service: ListingService, ghost s: P.State, ghost id: P.ThreadId, path: string, filter: TypeFilter,
                 name: string, epoch: Epoch, offer: Offer, nbytes: nat, t0: real, t1: real, t2: real, t3: real)
    returns (r: Listed, ghost events: seq<P.Event>, ghost t: P.State)
    requires service.Valid() && Serves(offer, Rows(service.catalog, epoch, path), filter, name)
    requires Stands(service, s) && id !in s.threads && path !in s.registry && s.free > 0
    modifies service`entries, service.cache
    ensures service.Valid() && Stands(service, t) && Goes(s, events, t, id)
    ensures events != [] && events[0] == P.Spawn(id, P.Interactive, path, filter, name)
    ensures var key := Key(epoch, path, filter, name);
            && (r.Joined? ==> key in s.inflight)
            && t.threads[id].key == key && t.threads[id].pc == Ends(s, key, r)
  {
    hide P.Run, Alone, Cached, Names, Serves, Derives, DerivedFrom, LedOps, Ends, T.Replay, T.Apply;
    ghost var key, log := Key(epoch, path, filter, name), service.cache.log;
    r := service.BaseListing(path, filter, name, epoch, offer, nbytes, t0, t1, t2, t3);
    ReplayNext(log, T.Get(key, t0), service.cache.limits);
    events, t := BaseRuns(s, id, key, log, service.cache.limits, r, nbytes, t0, t1, t2, t3);
  }

  // A refresh by the cache warmer, likewise.
  method Refresh(service: ListingService, ghost s: P.State, ghost id: P.ThreadId, path: string, minTtl: real,
                 epoch: Epoch, offer: Offer, nbytes: nat, t0: real, t1: real, t2: real, t3: real)
    returns (r: Result<seq<string>, string>, ghost events: seq<P.Event>, ghost t: P.State, ghost o: P.Outcome)
    requires service.Valid() && Serves(offer, Rows(service.catalog, epoch, NormalizePrefix(path)), AnyType, "")
    requires Stands(service, s) && id !in s.threads && NormalizePrefix(path) !in s.registry && s.free > 0
    modifies service`entries, service.cache
    ensures service.Valid() && Stands(service, t) && Goes(s, events, t, id)
    ensures events != [] && events[0] == P.Spawn(id, P.Warm, NormalizePrefix(path), AnyType, "")
    ensures t.threads[id] == P.Thread(P.Warm, Key(epoch, NormalizePrefix(path), AnyType, ""), P.Done(o), None)
    ensures if o.Value? then r == Success(DirNames(o.listing.table)) else r.Failure?
  {
    hide P.Run, Alone, Cached, Names, Serves, LongLived, FreshOps, T.Replay, T.Clocked;
    ghost var key, log := Key(epoch, NormalizePrefix(path), AnyType, ""), service.cache.log;
    ghost var listing, put;
    r, listing, put := service.WarmListing(path, minTtl, epoch, offer, nbytes, t0, t1, t2, t3);
    o := if r.Success? then P.Value(listing) else P.Error;
    events, t := WarmRuns(s, id, key, log, service.cache.limits, o, put, minTtl, nbytes, t0, t1, t2, t3);
  }
}
