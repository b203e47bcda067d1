/**
 One request of the listing protocol that runs by itself: the stages it goes through and
 the runs they add up to, with evictions in between.
 */
module ListingStages {
  import opened Maps
  import opened Wrappers
  import opened RollupSpec
  import opened ListingSpec
  import opened Listings
  import P = ListingProtocol

  ghost predicate Submap(a: map<Key, Listing>, b: map<Key, Listing>) {
    forall k <- a :: k in b && a[k] == b[k]
  }

  lemma SubmapTrans(a: map<Key, Listing>, b: map<Key, Listing>, c: map<Key, Listing>)
    requires Submap(a, b) && Submap(b, c)
    ensures Submap(a, c)
  {
  }

  // ---- stretches of a run ----------------------------------------------------------------------

  lemma {:induction false} RunConcat(s: P.State, a: seq<P.Event>, mid: P.State, b: seq<P.Event>)
    requires P.Run(s, a) == Some(mid)
    ensures P.Run(s, a + b) == P.Run(mid, b)
    decreases |b|
  {
    hide P.Step;
    if b == [] {
      assert a + b == a;
    } else {
      RunConcat(s, a, mid, b[..|b| - 1]);
      assert (a + b)[..|a + b| - 1] == a + b[..|b| - 1];
    }
  }

  // The request's own steps and evictions.
  ghost predicate Alone(events: seq<P.Event>, id: P.ThreadId) {
    forall e <- events :: e.Evict? || ((e.Spawn? || P.Own(e)) && e.id == id)
  }

  // Nothing but the request, the cache and what is registered under the request's own flight
  // differs.
  ghost predicate Same(s: P.State, t: P.State, id: P.ThreadId) {
    && (t.catalog, t.cap, t.registry, t.tasks, t.free, t.others, t.capacity)
       == (s.catalog, s.cap, s.registry, s.tasks, s.free, s.others, s.capacity)
    && id in t.threads && t.threads == s.threads[id := t.threads[id]]
    && forall f <- s.flights :: f != id ==> f in t.flights && t.flights[f] == s.flights[f]
  }

  ghost predicate Goes(s: P.State, events: seq<P.Event>, t: P.State, id: P.ThreadId) {
    P.Run(s, events) == Some(t) && Alone(events, id) && Same(s, t, id)
  }

  lemma GoesOn(s: P.State, a: seq<P.Event>, mid: P.State, b: seq<P.Event>, t: P.State, id: P.ThreadId)
    requires Goes(s, a, mid, id) && Goes(mid, b, t, id)
    ensures Goes(s, a + b, t, id)
  {
    RunConcat(s, a, mid, b);
  }

  lemma GoesOne(s: P.State, e: P.Event, t: P.State, id: P.ThreadId)
    requires P.Step(s, e) == Some(t) && Alone([e], id) && Same(s, t, id)
    ensures Goes(s, [e], t, id)
  {
    hide P.Step;
    assert [e][..0] == [];
    assert P.Run(s, []) == Some(s);
  }

  // Entries that are gone were evicted.
  lemma Evicted(s: P.State, cache: map<Key, Listing>, id: P.ThreadId) returns (events: seq<P.Event>)
    requires id in s.threads && Submap(cache, s.cache)
    ensures Goes(s, events, s.(cache := cache), id)
  {
    hide Goes;
    assert cache == s.cache - (s.cache.Keys - cache.Keys);
    events := EvictAll(s, s.cache.Keys - cache.Keys, id);
  }

  lemma EvictAll(s: P.State, gone: set<Key>, id: P.ThreadId) returns (events: seq<P.Event>)
    requires id in s.threads
    ensures Goes(s, events, s.(cache := s.cache - gone), id)
    decreases gone
  {
    hide *;
    if k :| k in gone {
      var t := s.(cache := s.cache - {k});
      EvictOne(s, k, id);
      var more := EvictAll(t, gone - {k}, id);
      assert t.cache - (gone - {k}) == s.cache - gone;
      GoesOn(s, [P.Evict(k)], t, more, s.(cache := s.cache - gone), id);
      events := [P.Evict(k)] + more;
    } else {
      events := [];
      assert s.cache - gone == s.cache;
      GoesNowhere(s, id);
    }
  }

  lemma EvictOne(s: P.State, k: Key, id: P.ThreadId)
    requires id in s.threads
    ensures Goes(s, [P.Evict(k)], s.(cache := s.cache - {k}), id)
  {
    assert s.threads == s.threads[id := s.threads[id]];
    GoesOne(s, P.Evict(k), s.(cache := s.cache - {k}), id);
  }

  lemma GoesNowhere(s: P.State, id: P.ThreadId)
    requires id in s.threads
    ensures Goes(s, [], s, id)
  {
    assert s.threads == s.threads[id := s.threads[id]];
  }

  ghost function In(s: P.State, id: P.ThreadId, kind: P.Kind, key: Key, pc: P.Pc, flight: Option<P.ThreadId>): P.State {
    s.(threads := s.threads[id := P.Thread(kind, key, pc, flight)])
  }

  // ---- one stage of a request after the other ----------------------------------------------------

  lemma Arrives(s: P.State, id: P.ThreadId, kind: P.Kind, key: Key) returns (events: seq<P.Event>)
    requires id !in s.threads && key.path !in s.registry
    requires kind.Interactive? || (kind.Warm? && key == key.Whole())
    ensures events != [] && events[0] == P.Spawn(id, kind, key.path, key.filter, key.name)
    ensures Goes(s, events, In(s, id, kind, key, P.LookUp, None), id)
  {
    hide Goes, In;
    events := [P.Spawn(id, kind, key.path, key.filter, key.name)] + [P.Enter(id, key.epoch)];
    Spawns(s, id, kind, key);
    var first := key.(epoch := None);
    Enters(s, id, kind, first, key.epoch);
    var next := if kind.Interactive? then P.FindPrefetch else P.LookUp;
    GoesOn(s, [P.Spawn(id, kind, key.path, key.filter, key.name)], In(s, id, kind, first, P.Start, None),
           [P.Enter(id, key.epoch)], In(s, id, kind, key, next, None), id);
    if kind.Interactive? {
      Finds(s, id, kind, key);
      GoesOn(s, events, In(s, id, kind, key, next, None), [P.Find(id)], In(s, id, kind, key, P.LookUp, None), id);
      events := events + [P.Find(id)];
    }
  }

  lemma Spawns(s: P.State, id: P.ThreadId, kind: P.Kind, key: Key)
    requires id !in s.threads && (kind.Interactive? || (kind.Warm? && key == key.Whole()))
    ensures Goes(s, [P.Spawn(id, kind, key.path, key.filter, key.name)],
                 In(s, id, kind, key.(epoch := None), P.Start, None), id)
  {
    GoesOne(s, P.Spawn(id, kind, key.path, key.filter, key.name),
            In(s, id, kind, key.(epoch := None), P.Start, None), id);
  }

  lemma Enters(s: P.State, id: P.ThreadId, kind: P.Kind, key: Key, epoch: Epoch)
    ensures Goes(In(s, id, kind, key, P.Start, None), [P.Enter(id, epoch)],
                 In(s, id, kind, key.(epoch := epoch), if kind.Interactive? then P.FindPrefetch else P.LookUp, None),
                 id)
  {
    SetsTwice(s.threads, id);
    GoesOne(In(s, id, kind, key, P.Start, None), P.Enter(id, epoch),
            In(s, id, kind, key.(epoch := epoch), if kind.Interactive? then P.FindPrefetch else P.LookUp, None), id);
  }

  lemma Finds(s: P.State, id: P.ThreadId, kind: P.Kind, key: Key)
    requires key.path !in s.registry
    ensures Goes(In(s, id, kind, key, P.FindPrefetch, None), [P.Find(id)], In(s, id, kind, key, P.LookUp, None), id)
  {
    SetsTwice(s.threads, id);
    GoesOne(In(s, id, kind, key, P.FindPrefetch, None), P.Find(id), In(s, id, kind, key, P.LookUp, None), id);
  }

  // What a lookup leads to.
  function Looking(s: P.State, kind: P.Kind, key: Key, live: bool): P.Pc {
    if key in s.cache && (live || !kind.Warm?) then P.Done(P.Value(s.cache[key]))
    else if kind.Warm? then P.AwaitGate else P.JoinFlight
  }

  lemma Looks(s: P.State, id: P.ThreadId, kind: P.Kind, key: Key, live: bool)
    ensures Goes(In(s, id, kind, key, P.LookUp, None), [P.Look(id, live)],
                 In(s, id, kind, key, Looking(s, kind, key, live), None), id)
  {
    SetsTwice(s.threads, id);
    GoesOne(In(s, id, kind, key, P.LookUp, None), P.Look(id, live),
            In(s, id, kind, key, Looking(s, kind, key, live), None), id);
  }

  lemma Joins(s: P.State, id: P.ThreadId, kind: P.Kind, key: Key)
    requires key in s.inflight
    ensures var f := s.inflight[key];
            Goes(In(s, id, kind, key, P.JoinFlight, None), [P.Join(id)], In(s, id, kind, key, P.Follow(f), Some(f)), id)
  {
    var f := s.inflight[key];
    SetsTwice(s.threads, id);
    GoesOne(In(s, id, kind, key, P.JoinFlight, None), P.Join(id), In(s, id, kind, key, P.Follow(f), Some(f)), id);
  }

  // The state with the request's own flight registered.
  function Flying(s: P.State, id: P.ThreadId, key: Key): P.State {
    s.(inflight := s.inflight[key := id], flights := s.flights[id := P.Flight(key, None)])
  }

  lemma Leads(s: P.State, id: P.ThreadId, kind: P.Kind, key: Key)
    requires key !in s.inflight
    ensures Goes(In(s, id, kind, key, P.JoinFlight, None), [P.Join(id)],
                 In(Flying(s, id, key), id, kind, key, P.Decide, Some(id)), id)
  {
    SetsTwice(s.threads, id);
    hide Goes;
    GoesOne(In(s, id, kind, key, P.JoinFlight, None), P.Join(id),
            In(Flying(s, id, key), id, kind, key, P.Decide, Some(id)), id);
  }

  function Choosing(s: P.State, key: Key): P.Pc {
    if P.Derivable(s, key) then P.Store(P.Derived(s, key)) else P.AwaitGate
  }

  lemma Chooses(s: P.State, id: P.ThreadId, kind: P.Kind, key: Key, flight: Option<P.ThreadId>)
    ensures Goes(In(s, id, kind, key, P.Decide, flight), [P.Choose(id)],
                 In(s, id, kind, key, Choosing(s, key), flight), id)
  {
    SetsTwice(s.threads, id);
    GoesOne(In(s, id, kind, key, P.Decide, flight), P.Choose(id), In(s, id, kind, key, Choosing(s, key), flight), id);
  }

  function Answering(kind: P.Kind, o: P.Outcome): P.Pc {
    if o.Value? then P.Store(o.listing) else if kind.Warm? then P.Done(o) else P.Clear(o)
  }

  // A permit is taken for the query and returned with its answer.
  lemma Queries(s: P.State, id: P.ThreadId, kind: P.Kind, key: Key, flight: Option<P.ThreadId>, o: P.Outcome)
    requires s.free > 0 && P.Honest(s.catalog, s.cap, key, o)
    ensures Goes(In(s, id, kind, key, P.AwaitGate, flight), [P.Acquire(id), P.Answer(id, o)],
                 In(s, id, kind, key, Answering(kind, o), flight), id)
  {
    hide P.Run, P.Step, P.Honest, Answering;
    var q := In(s.(free := s.free - 1), id, kind, key, P.Query, flight);
    AcquireStep(s, id, kind, key, flight);
    AnswerStep(s, id, kind, key, flight, o);
    RunTwo(In(s, id, kind, key, P.AwaitGate, flight), P.Acquire(id), q, P.Answer(id, o));
    SetsTwice(s.threads, id);
  }

  lemma AcquireStep(s: P.State, id: P.ThreadId, kind: P.Kind, key: Key, flight: Option<P.ThreadId>)
    requires s.free > 0
    ensures P.Step(In(s, id, kind, key, P.AwaitGate, flight), P.Acquire(id))
            == Some(In(s.(free := s.free - 1), id, kind, key, P.Query, flight))
  {
    SetsTwice(s.threads, id);
  }

  lemma AnswerStep(s: P.State, id: P.ThreadId, kind: P.Kind, key: Key, flight: Option<P.ThreadId>, o: P.Outcome)
    requires s.free > 0 && P.Honest(s.catalog, s.cap, key, o)
    ensures P.Step(In(s.(free := s.free - 1), id, kind, key, P.Query, flight), P.Answer(id, o))
            == Some(In(s, id, kind, key, Answering(kind, o), flight))
  {
    hide P.Honest;
    SetsTwice(s.threads, id);
  }

  lemma RunTwo(s: P.State, e: P.Event, mid: P.State, f: P.Event)
    requires P.Step(s, e) == Some(mid)
    ensures P.Run(s, [e, f]) == P.Step(mid, f)
  {
    hide P.Step;
    assert [e, f][..1] == [e] && [e][..0] == [];
    assert P.Run(s, []) == Some(s);
    assert P.Run(s, [e]) == Some(mid);
  }

  lemma Puts(s: P.State, id: P.ThreadId, kind: P.Kind, key: Key, flight: Option<P.ThreadId>, l: Listing, kept: bool)
    ensures Goes(In(s, id, kind, key, P.Store(l), flight), [P.Put(id, kept)],
                 In(s.(cache := if kept then s.cache[key := l] else s.cache - {key}), id, kind, key,
                    if kind.Warm? then P.Done(P.Value(l)) else P.Clear(P.Value(l)), flight), id)
  {
    SetsTwice(s.threads, id);
    GoesOne(In(s, id, kind, key, P.Store(l), flight), P.Put(id, kept),
            In(s.(cache := if kept then s.cache[key := l] else s.cache - {key}), id, kind, key,
               if kind.Warm? then P.Done(P.Value(l)) else P.Clear(P.Value(l)), flight), id);
  }

  function Landed(s: P.State, id: P.ThreadId, key: Key, o: P.Outcome): P.State {
    s.(inflight := s.inflight - {key}, flights := s.flights[id := P.Flight(key, Some(o))])
  }

  lemma Lands(s: P.State, id: P.ThreadId, kind: P.Kind, key: Key, o: P.Outcome)
    ensures Goes(In(s, id, kind, key, P.Clear(o), Some(id)), [P.ClearFlight(id), P.Resolve(id)],
                 In(Landed(s, id, key, o), id, kind, key, P.Done(o), Some(id)), id)
  {
    hide Goes, P.Step;
    var q := In(s.(inflight := s.inflight - {key}), id, kind, key, P.Announce(o), Some(id));
    ClearStep(s, id, kind, key, o);
    ResolveStep(s, id, kind, key, o);
    GoesOn(In(s, id, kind, key, P.Clear(o), Some(id)), [P.ClearFlight(id)], q, [P.Resolve(id)],
           In(Landed(s, id, key, o), id, kind, key, P.Done(o), Some(id)), id);
    assert [P.ClearFlight(id)] + [P.Resolve(id)] == [P.ClearFlight(id), P.Resolve(id)];
  }

  lemma ClearStep(s: P.State, id: P.ThreadId, kind: P.Kind, key: Key, o: P.Outcome)
    ensures Goes(In(s, id, kind, key, P.Clear(o), Some(id)), [P.ClearFlight(id)],
                 In(s.(inflight := s.inflight - {key}), id, kind, key, P.Announce(o), Some(id)), id)
  {
    SetsTwice(s.threads, id);
    GoesOne(In(s, id, kind, key, P.Clear(o), Some(id)), P.ClearFlight(id),
            In(s.(inflight := s.inflight - {key}), id, kind, key, P.Announce(o), Some(id)), id);
  }

  lemma ResolveStep(s: P.State, id: P.ThreadId, kind: P.Kind, key: Key, o: P.Outcome)
    ensures Goes(In(s.(inflight := s.inflight - {key}), id, kind, key, P.Announce(o), Some(id)), [P.Resolve(id)],
                 In(Landed(s, id, key, o), id, kind, key, P.Done(o), Some(id)), id)
  {
    SetsTwice(s.threads, id);
    GoesOne(In(s.(inflight := s.inflight - {key}), id, kind, key, P.Announce(o), Some(id)), P.Resolve(id),
            In(Landed(s, id, key, o), id, kind, key, P.Done(o), Some(id)), id);
  }

  // ---- from arrival to answer ----------------------------------------------------------------------

  // A request arrives and looks its key up in what is left of the cache.
  lemma LooksUp(s: P.State, id: P.ThreadId, kind: P.Kind, key: Key, cache: map<Key, Listing>, live: bool)
    returns (events: seq<P.Event>)
    requires id !in s.threads && key.path !in s.registry && Submap(cache, s.cache)
    requires kind.Interactive? || (kind.Warm? && key == key.Whole())
    ensures events != [] && events[0] == P.Spawn(id, kind, key.path, key.filter, key.name)
    ensures var t := s.(cache := cache);
            Goes(s, events, In(t, id, kind, key, Looking(t, kind, key, live), None), id)
  {
    hide Goes, Looking, Submap;
    var t := s.(cache := cache);
    var a := Arrives(s, id, kind, key);
    var b := Evicted(In(s, id, kind, key, P.LookUp, None), cache, id);
    GoesOn(s, a, In(s, id, kind, key, P.LookUp, None), b, In(t, id, kind, key, P.LookUp, None), id);
    Looks(t, id, kind, key, live);
    GoesOn(s, a + b, In(t, id, kind, key, P.LookUp, None), [P.Look(id, live)],
           In(t, id, kind, key, Looking(t, kind, key, live), None), id);
    events := a + b + [P.Look(id, live)];
  }

  // The cache after an entry was put: at most what was there, and this entry if it was kept.
  ghost predicate Stores(before: map<Key, Listing>, key: Key, l: Listing, after: map<Key, Listing>) {
    Submap(after - {key}, before) && (key in after ==> after[key] == l)
  }

  lemma Stored(s: P.State, id: P.ThreadId, kind: P.Kind, key: Key, flight: Option<P.ThreadId>, l: Listing,
               cache: map<Key, Listing>) returns (events: seq<P.Event>)
    requires Stores(s.cache, key, l, cache)
    ensures Goes(In(s, id, kind, key, P.Store(l), flight), events,
                 In(s.(cache := cache), id, kind, key,
                    if kind.Warm? then P.Done(P.Value(l)) else P.Clear(P.Value(l)), flight), id)
  {
    hide Goes;
    var pc := if kind.Warm? then P.Done(P.Value(l)) else P.Clear(P.Value(l));
    var put := if key in cache then s.cache[key := l] else s.cache - {key};
    Puts(s, id, kind, key, flight, l, key in cache);
    assert Submap(cache, put) by {
      assert forall k <- cache :: k != key ==> k in cache - {key};
    }
    var more := Evicted(In(s.(cache := put), id, kind, key, pc, flight), cache, id);
    GoesOn(In(s, id, kind, key, P.Store(l), flight), [P.Put(id, key in cache)],
           In(s.(cache := put), id, kind, key, pc, flight), more,
           In(s.(cache := cache), id, kind, key, pc, flight), id);
    events := [P.Put(id, key in cache)] + more;
  }

  // The listing that a computation ends with: derived when that is possible, else answered.
  ghost predicate Computed(s: P.State, key: Key, o: P.Outcome) {
    if P.Derivable(s, key) then o == P.Value(P.Derived(s, key)) else P.Honest(s.catalog, s.cap, key, o)
  }

  ghost predicate Leaves(before: map<Key, Listing>, key: Key, o: P.Outcome, after: map<Key, Listing>) {
    if o.Value? then Stores(before, key, o.listing, after) else after == before
  }

  lemma Answered(s: P.State, id: P.ThreadId, key: Key, flight: Option<P.ThreadId>, o: P.Outcome)
    returns (events: seq<P.Event>)
    requires s.free > 0 && Computed(s, key, o)
    ensures Goes(In(s, id, P.Interactive, key, P.Decide, flight), events,
                 In(s, id, P.Interactive, key, Answering(P.Interactive, o), flight), id)
  {
    hide Goes, P.Derivable, P.Derived, P.Honest;
    Chooses(s, id, P.Interactive, key, flight);
    events := [P.Choose(id)];
    if !P.Derivable(s, key) {
      Queries(s, id, P.Interactive, key, flight, o);
      GoesOn(In(s, id, P.Interactive, key, P.Decide, flight), events,
             In(s, id, P.Interactive, key, P.AwaitGate, flight), [P.Acquire(id), P.Answer(id, o)],
             In(s, id, P.Interactive, key, Answering(P.Interactive, o), flight), id);
      events := events + [P.Acquire(id), P.Answer(id, o)];
    }
  }

  // A leader finishes: with a value the entry is put; either way the flight is resolved.
  lemma Finished(s: P.State, id: P.ThreadId, key: Key, o: P.Outcome, cache: map<Key, Listing>)
    returns (events: seq<P.Event>)
    requires Leaves(s.cache, key, o, cache)
    ensures Goes(In(s, id, P.Interactive, key, Answering(P.Interactive, o), Some(id)), events,
                 In(Landed(s.(cache := cache), id, key, o), id, P.Interactive, key, P.Done(o), Some(id)), id)
  {
    hide Goes, Stores;
    var t := s.(cache := cache);
    Lands(t, id, P.Interactive, key, o);
    events := [P.ClearFlight(id), P.Resolve(id)];
    if o.Value? {
      var put := Stored(s, id, P.Interactive, key, Some(id), o.listing, cache);
      GoesOn(In(s, id, P.Interactive, key, P.Store(o.listing), Some(id)), put,
             In(t, id, P.Interactive, key, P.Clear(o), Some(id)), events,
             In(Landed(t, id, key, o), id, P.Interactive, key, P.Done(o), Some(id)), id);
      events := put + events;
    }
  }

  // A leader's part, from the registry of flights to its answer.
  lemma Led(s: P.State, id: P.ThreadId, key: Key, seen: map<Key, Listing>, o: P.Outcome, cache: map<Key, Listing>)
    returns (events: seq<P.Event>, t: P.State)
    requires key !in s.inflight && s.free > 0 && Submap(seen, s.cache)
    requires Computed(s.(cache := seen), key, o) && Leaves(seen, key, o, cache)
    ensures Goes(In(s, id, P.Interactive, key, P.JoinFlight, None), events, t, id)
    ensures t.cache == cache && t.inflight == s.inflight
    ensures t.threads[id] == P.Thread(P.Interactive, key, P.Done(o), Some(id))
  {
    hide Goes, Submap, Computed, Leaves, Answering;
    var fly := Flying(s, id, key).(cache := seen);
    var start := In(s, id, P.Interactive, key, P.JoinFlight, None);
    Leads(s, id, P.Interactive, key);
    var a := Evicted(In(Flying(s, id, key), id, P.Interactive, key, P.Decide, Some(id)), seen, id);
    GoesOn(start, [P.Join(id)], In(Flying(s, id, key), id, P.Interactive, key, P.Decide, Some(id)),
           a, In(fly, id, P.Interactive, key, P.Decide, Some(id)), id);
    assert Computed(fly, key, o) by { SameComputed(s.(cache := seen), fly, key, o); }
    var b := Answered(fly, id, key, Some(id), o);
    GoesOn(start, [P.Join(id)] + a, In(fly, id, P.Interactive, key, P.Decide, Some(id)),
           b, In(fly, id, P.Interactive, key, Answering(P.Interactive, o), Some(id)), id);
    var c := Finished(fly, id, key, o, cache);
    t := In(Landed(fly.(cache := cache), id, key, o), id, P.Interactive, key, P.Done(o), Some(id));
    GoesOn(start, [P.Join(id)] + a + b, In(fly, id, P.Interactive, key, Answering(P.Interactive, o), Some(id)),
           c, t, id);
    events := [P.Join(id)] + a + b + c;
    PutAndRemoved(s.inflight, key, id);
  }

  lemma SameComputed(s: P.State, t: P.State, key: Key, o: P.Outcome)
    requires Computed(s, key, o) && (t.cache, t.catalog, t.cap) == (s.cache, s.catalog, s.cap)
    ensures Computed(t, key, o)
  {
  }
}
