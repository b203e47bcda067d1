/**
 Every step of the listing protocol keeps its invariant.
 */
module ListingInvariant {
  import opened Wrappers
  import opened RollupSpec
  import opened ListingSpec
  import opened Listings
  import opened ListingProtocol

  lemma InitInv(catalog: Catalog, cap: nat, permits: nat)
    ensures Inv(Init(catalog, cap, permits))
  {
    assert Holders(map[]) == {};
  }

  // ---- the gate ---------------------------------------------------------------------------

  lemma HoldersUpdate(threads: map<ThreadId, Thread>, id: ThreadId, k: Thread)
    ensures Holders(threads[id := k]) == if k.pc.Query? then Holders(threads) + {id} else Holders(threads) - {id}
    ensures id in threads ==> (id in Holders(threads) <==> threads[id].pc.Query?)
    ensures id !in threads ==> id !in Holders(threads)
  {
  }

  // A request that neither takes nor returns a permit.
  lemma GateStays(threads: map<ThreadId, Thread>, id: ThreadId, k: Thread)
    requires if id in threads then k.pc.Query? == threads[id].pc.Query? else !k.pc.Query?
    ensures Holders(threads[id := k]) == Holders(threads)
  {
    HoldersUpdate(threads, id, k);
  }

  // ---- moves that change one request only ----------------------------------------------------

  // The request stays on the same side of leading, announcing and querying.
  predicate SameSide(a: Thread, b: Thread) {
    Leads(a) == Leads(b) && a.pc.Announce? == b.pc.Announce? && !a.pc.Done?
    && a.key == b.key && a.flight == b.flight && a.kind == b.kind
  }

  // What holds of every other request still holds after one request changed.
  lemma OthersKeep(s: State, t: State, id: ThreadId)
    requires Inv(s) && t.threads.Keys == s.threads.Keys + {id}
    requires t.catalog == s.catalog && t.cap == s.cap
    requires forall i <- s.threads :: i != id ==>
      t.threads[i] == s.threads[i]
      && FlightMatches(t.flights, t.inflight, i, s.threads[i]) && TaskMatches(t.tasks, i, s.threads[i])
    requires ThreadOk(t, id)
    ensures forall i <- t.threads :: ThreadOk(t, i)
  {
    hide HoldsGood, FlightMatches, TaskMatches, KindOk, FlightOk, InflightOk, TaskOk;
    forall i <- t.threads
      ensures ThreadOk(t, i)
    {
      if i != id {
        assert ThreadOk(s, i);
      }
    }
  }

  // Flights and their registry are untouched by a request that keeps its side.
  lemma FlightsKeep(s: State, t: State, id: ThreadId)
    requires Inv(s) && id in s.threads && t.threads.Keys == s.threads.Keys
    requires t.flights == s.flights && t.inflight == s.inflight
    requires forall i <- s.threads :: i != id ==> t.threads[i] == s.threads[i]
    requires SameSide(s.threads[id], t.threads[id])
    ensures forall f <- t.flights :: FlightOk(t, f)
    ensures forall k <- t.inflight :: InflightOk(t, k)
  {
    hide ThreadOk, TaskOk, Names, Select;
    forall f <- t.flights
      ensures FlightOk(t, f)
    {
      assert FlightOk(s, f);
    }
    forall k <- t.inflight
      ensures InflightOk(t, k)
    {
      assert InflightOk(s, k);
    }
  }

  lemma TasksKeep(s: State, t: State, id: ThreadId)
    requires Inv(s) && t.tasks == s.tasks && id in t.threads
    requires forall i <- s.threads :: i in t.threads && t.threads[i].kind == s.threads[i].kind
    ensures forall task <- t.tasks :: TaskOk(t, task)
  {
    hide ThreadOk, FlightOk, InflightOk, Names, Select;
    forall task <- t.tasks
      ensures TaskOk(t, task)
    {
      assert TaskOk(s, task);
    }
  }

  // What others hold is untouched while flights, their registry and tasks are.
  lemma OthersUntouched(s: State, t: State, id: ThreadId)
    requires Inv(s) && t.threads.Keys == s.threads.Keys + {id}
    requires t.catalog == s.catalog && t.cap == s.cap
    requires t.flights == s.flights && t.inflight == s.inflight && t.tasks == s.tasks
    requires forall i <- s.threads :: i != id ==> t.threads[i] == s.threads[i]
    requires ThreadOk(t, id)
    ensures forall i <- t.threads :: ThreadOk(t, i)
  {
    hide HoldsGood, FlightMatches, TaskMatches, KindOk, FlightOk, InflightOk, TaskOk;
    forall i <- s.threads
      ensures FlightMatches(s.flights, s.inflight, i, s.threads[i]) && TaskMatches(s.tasks, i, s.threads[i])
    {
      assert ThreadOk(s, i);
    }
    OthersKeep(s, t, id);
  }

  // One request moves; gate, cache and prefetch registry may change with it.
  lemma MoveKeeps(s: State, id: ThreadId, k: Thread, t: State)
    requires Inv(s) && id in s.threads && SameSide(s.threads[id], k)
    requires t.threads == s.threads[id := k] && ThreadOk(t, id)
    requires t.catalog == s.catalog && t.cap == s.cap
    requires t.flights == s.flights && t.inflight == s.inflight && t.tasks == s.tasks
    requires CacheOk(t.catalog, t.cap, t.cache) && GateOk(t)
    requires forall path <- t.registry :: t.registry[path] in t.tasks
    ensures Inv(t)
  {
    hide ThreadOk, FlightOk, InflightOk, TaskOk, CacheOk, GateOk;
    OthersUntouched(s, t, id);
    FlightsKeep(s, t, id);
    TasksKeep(s, t, id);
  }

  // A request that keeps its permits and changes nothing else.
  lemma StepAside(s: State, id: ThreadId, pc: Pc)
    requires Inv(s) && id in s.threads && s.threads[id].pc.Query? == pc.Query?
    requires SameSide(s.threads[id], s.threads[id].(pc := pc)) && ThreadOk(Moved(s, id, pc), id)
    ensures Inv(Moved(s, id, pc))
  {
    hide ThreadOk, FlightOk, InflightOk, TaskOk, CacheOk;
    GateStays(s.threads, id, s.threads[id].(pc := pc));
    MoveKeeps(s, id, s.threads[id].(pc := pc), Moved(s, id, pc));
  }

  // The parts of the invariant that concern one request and the shared maps.
  lemma Parts(s: State, id: ThreadId)
    requires Inv(s) && id in s.threads
    ensures ThreadOk(s, id) && CacheOk(s.catalog, s.cap, s.cache) && GateOk(s)
    ensures forall path <- s.registry :: s.registry[path] in s.tasks
  {
    hide ThreadOk, CacheOk, GateOk, FlightOk, InflightOk, TaskOk;
  }

  // ---- requests: the early steps --------------------------------------------------------------

  lemma EnterKeeps(s: State, id: ThreadId, epoch: Epoch)
    requires Inv(s) && id in s.threads && s.threads[id].pc.Start?
    ensures Inv(Entered(s, id, epoch))
  {
    hide Inv, ThreadOk, CacheOk, FlightOk, InflightOk, TaskOk, Names, Select;
    var t := Entered(s, id, epoch);
    EnteredOk(s, id, epoch);
    OthersUntouched(s, t, id);
    TasksKeep(s, t, id);
    NotInFlight(s, id);
    EnteredFlights(s, t, id);
    Parts(s, id);
    GateStays(s.threads, id, t.threads[id]);
    Assemble(t);
  }

  lemma EnteredOk(s: State, id: ThreadId, epoch: Epoch)
    requires Inv(s) && id in s.threads && s.threads[id].pc.Start?
    ensures ThreadOk(Entered(s, id, epoch), id) && s.threads[id].flight.None?
  {
    hide Inv, Names, Select;
    Parts(s, id);
  }

  // Flights concern only requests that have entered the single-flight registry.
  lemma EnteredFlights(s: State, t: State, id: ThreadId)
    requires Inv(s) && t.flights == s.flights && t.inflight == s.inflight && t.threads.Keys >= s.threads.Keys
    requires forall i <- s.threads :: i != id ==> t.threads[i] == s.threads[i]
    requires id !in s.flights && forall k <- s.inflight :: s.inflight[k] != id
    ensures forall f <- t.flights :: FlightOk(t, f)
    ensures forall k <- t.inflight :: InflightOk(t, k)
  {
    hide ThreadOk, TaskOk, Names, Select;
    forall f <- t.flights
      ensures FlightOk(t, f)
    {
      assert FlightOk(s, f);
    }
    forall k <- t.inflight
      ensures InflightOk(t, k)
    {
      assert InflightOk(s, k);
    }
  }

  lemma NotInFlight(s: State, id: ThreadId)
    requires Inv(s) && (id in s.threads ==> s.threads[id].flight.None?)
    ensures id !in s.flights && forall k <- s.inflight :: s.inflight[k] != id
  {
    hide ThreadOk, TaskOk, Names;
    assert id in s.flights ==> FlightOk(s, id);
    forall k <- s.inflight
      ensures s.inflight[k] != id
    {
      assert InflightOk(s, k);
    }
  }

  lemma FindKeeps(s: State, id: ThreadId)
    requires Inv(s) && id in s.threads && s.threads[id].pc.FindPrefetch?
    ensures Inv(Moved(s, id, if s.threads[id].key.path in s.registry
                             then TryCancel(s.registry[s.threads[id].key.path]) else LookUp))
  {
    hide Inv, Names, Select;
    Parts(s, id);
    var path := s.threads[id].key.path;
    if path in s.registry {
      StepAside(s, id, TryCancel(s.registry[path]));
    } else {
      StepAside(s, id, LookUp);
    }
  }

  lemma WakeKeeps(s: State, id: ThreadId)
    requires Inv(s) && id in s.threads && s.threads[id].pc.AwaitPrefetch?
    ensures Inv(Moved(s, id, LookUp))
  {
    hide Inv, Names, Select;
    Parts(s, id);
    StepAside(s, id, LookUp);
  }

  lemma DropKeeps(s: State, id: ThreadId)
    requires Inv(s) && id in s.threads && s.threads[id].pc.DropPrefetch?
    ensures Inv(Dropped(s, id))
  {
    hide Inv, Names, Select, CacheOk;
    var t := Dropped(s, id);
    Parts(s, id);
    GateStays(s.threads, id, t.threads[id]);
    MoveKeeps(s, id, t.threads[id], t);
  }

  lemma LookKeeps(s: State, id: ThreadId, pc: Pc)
    requires Inv(s) && id in s.threads && s.threads[id].pc.LookUp?
    requires var t := s.threads[id];
             || (pc == if t.kind.Warm? then AwaitGate else JoinFlight)
             || (t.key in s.cache && pc == Done(Value(s.cache[t.key])))
    ensures Inv(Moved(s, id, pc))
  {
    hide Inv, Names, Select, TaskMatches, FlightMatches;
    Parts(s, id);
    Steady(s, id, pc);
  }

  // A request without a flight moves on.
  lemma Steady(s: State, id: ThreadId, pc: Pc)
    requires Inv(s) && id in s.threads && ThreadOk(s, id) && s.threads[id].pc.LookUp?
    requires pc.JoinFlight? || (pc.AwaitGate? && s.threads[id].kind.Warm?)
             || (pc.Done? && Honest(s.catalog, s.cap, s.threads[id].key, pc.outcome))
    requires pc.JoinFlight? ==> !s.threads[id].kind.Warm?
    ensures Inv(Moved(s, id, pc))
  {
    hide Inv, Names, Select;
    StepAside(s, id, pc);
  }

  lemma ObtainKeeps(s: State, id: ThreadId, f: ThreadId)
    requires Inv(s) && id in s.threads && s.threads[id].pc == Follow(f)
    requires f in s.flights && s.flights[f].outcome.Some?
    ensures Inv(Moved(s, id, Done(s.flights[f].outcome.value)))
  {
    hide Inv, Names, Select;
    Parts(s, id);
    ResolvedIsHonest(s, f);
    StepAside(s, id, Done(s.flights[f].outcome.value));
  }

  lemma ResolvedIsHonest(s: State, f: ThreadId)
    requires Inv(s) && f in s.flights && s.flights[f].outcome.Some?
    ensures Honest(s.catalog, s.cap, s.flights[f].key, s.flights[f].outcome.value)
    ensures f in s.threads && s.threads[f].pc == Done(s.flights[f].outcome.value)
  {
    hide Names, Select;
    assert FlightOk(s, f);
    assert ThreadOk(s, f);
  }

  lemma ChooseKeeps(s: State, id: ThreadId)
    requires Inv(s) && id in s.threads && s.threads[id].pc.Decide?
    ensures var key := s.threads[id].key;
            Inv(Moved(s, id, if Derivable(s, key) then Store(Derived(s, key)) else AwaitGate))
  {
    hide Inv, Names, Select;
    var key := s.threads[id].key;
    Parts(s, id);
    if Derivable(s, key) {
      assert Names(s.catalog, s.cap, key.Whole(), s.cache[key.Whole()]);
      DerivedNames(s.catalog, s.cap, key, s.cache[key.Whole()]);
      StepAside(s, id, Store(Derived(s, key)));
    } else {
      StepAside(s, id, AwaitGate);
    }
  }

  // ---- cancelling a queued prefetch -----------------------------------------------------------

  lemma CancelKeeps(s: State, id: ThreadId, task: TaskId)
    requires Inv(s) && id in s.threads && s.threads[id].pc == TryCancel(task) && task in s.tasks
    ensures s.tasks[task].phase.Queued? || s.tasks[task].phase.Cancelled? ==> Inv(CancelledTask(s, id, task))
    ensures !s.tasks[task].phase.Queued? && !s.tasks[task].phase.Cancelled? ==> Inv(Moved(s, id, AwaitPrefetch(task)))
  {
    hide Inv, Names, Select;
    Parts(s, id);
    if s.tasks[task].phase.Queued? || s.tasks[task].phase.Cancelled? {
      CancelQueuedKeeps(s, id, task);
    } else {
      StepAside(s, id, AwaitPrefetch(task));
    }
  }

  lemma CancelQueuedKeeps(s: State, id: ThreadId, task: TaskId)
    requires Inv(s) && id in s.threads && s.threads[id].pc == TryCancel(task) && task in s.tasks
    requires s.tasks[task].phase.Queued? || s.tasks[task].phase.Cancelled?
    ensures Inv(CancelledTask(s, id, task))
  {
    hide Inv, Names, Select, FlightOk, InflightOk;
    var t := CancelledTask(s, id, task);
    Parts(s, id);
    GateStays(s.threads, id, t.threads[id]);
    OthersCancel(s, task, id);
    OthersKeep(s, t, id);
    FlightsKeep(s, t, id);
    InvTasks(s);
    assert Inv(t) by { hide CacheOk, GateOk, ThreadOk; Assemble(t); }
  }

  lemma InvTasks(s: State)
    requires Inv(s)
    ensures forall task <- s.tasks :: TaskOk(s, task)
  {
    hide ThreadOk, CacheOk, GateOk, FlightOk, InflightOk;
  }

  lemma InvFlights(s: State)
    requires Inv(s)
    ensures forall f <- s.flights :: FlightOk(s, f)
    ensures forall k <- s.inflight :: InflightOk(s, k)
  {
    hide ThreadOk, CacheOk, GateOk, TaskOk;
  }

  lemma Assemble(s: State)
    requires CacheOk(s.catalog, s.cap, s.cache) && GateOk(s)
    requires forall id <- s.threads :: ThreadOk(s, id)
    requires forall f <- s.flights :: FlightOk(s, f)
    requires forall k <- s.inflight :: InflightOk(s, k)
    requires forall task <- s.tasks :: TaskOk(s, task)
    requires forall path <- s.registry :: s.registry[path] in s.tasks
    ensures Inv(s)
  {
  }

  // Nobody waits for, or runs, a task that is still queued or was cancelled.
  lemma OthersCancel(s: State, task: TaskId, id: ThreadId)
    requires Inv(s) && task in s.tasks && (s.tasks[task].phase.Queued? || s.tasks[task].phase.Cancelled?)
    ensures forall i <- s.threads ::
      FlightMatches(s.flights, s.inflight, i, s.threads[i])
      && (i != id ==> TaskMatches(s.tasks[task := s.tasks[task].(phase := Cancelled)], i, s.threads[i]))
  {
    hide Inv, HoldsGood, KindOk, Names, Select;
    forall i <- s.threads
      ensures FlightMatches(s.flights, s.inflight, i, s.threads[i])
        && (i != id ==> TaskMatches(s.tasks[task := s.tasks[task].(phase := Cancelled)], i, s.threads[i]))
    {
      Parts(s, i);
    }
  }

  // ---- the single-flight registry ---------------------------------------------------------------

  lemma FollowKeeps(s: State, id: ThreadId)
    requires Inv(s) && id in s.threads && s.threads[id].pc.JoinFlight? && s.threads[id].key in s.inflight
    ensures Inv(Followed(s, id))
  {
    hide Inv, Names, Select, CacheOk, ThreadOk, FlightOk, TaskOk;
    var t := Followed(s, id);
    FollowedOk(s, id);
    Parts(s, id);
    NotInFlight(s, id);
    GateStays(s.threads, id, t.threads[id]);
    OthersUntouched(s, t, id);
    EnteredFlights(s, t, id);
    TasksKeep(s, t, id);
    Assemble(t);
  }

  lemma FollowedOk(s: State, id: ThreadId)
    requires Inv(s) && id in s.threads && s.threads[id].pc.JoinFlight? && s.threads[id].key in s.inflight
    ensures ThreadOk(Followed(s, id), id) && s.threads[id].flight.None?
  {
    hide Inv, Names, Select;
    Parts(s, id);
    InvFlights(s);
    assert InflightOk(s, s.threads[id].key);
  }

  lemma LeadKeeps(s: State, id: ThreadId)
    requires Inv(s) && id in s.threads && s.threads[id].pc.JoinFlight? && s.threads[id].key !in s.inflight
    ensures Inv(Led(s, id))
  {
    hide Inv, Names, Select, CacheOk;
    var t := Led(s, id);
    Parts(s, id);
    NotInFlight(s, id);
    GateStays(s.threads, id, t.threads[id]);
    OthersLead(s, id);
    OthersKeep(s, t, id);
    LedFlights(s, id);
    TasksKeep(s, t, id);
    assert Inv(t) by { hide GateOk, ThreadOk, FlightOk, InflightOk; Assemble(t); }
  }

  lemma OthersLead(s: State, id: ThreadId)
    requires Inv(s) && id in s.threads && s.threads[id].key !in s.inflight && id !in s.flights
    ensures forall i <- s.threads ::
      FlightMatches(Led(s, id).flights, Led(s, id).inflight, i, s.threads[i])
      && TaskMatches(s.tasks, i, s.threads[i])
  {
    hide Inv, HoldsGood, KindOk, Names, Select;
    forall i <- s.threads
      ensures FlightMatches(Led(s, id).flights, Led(s, id).inflight, i, s.threads[i])
        && TaskMatches(s.tasks, i, s.threads[i])
    {
      Parts(s, i);
    }
  }

  lemma LedFlights(s: State, id: ThreadId)
    requires Inv(s) && id in s.threads && id !in s.flights && !s.threads[id].kind.Warm?
    requires forall k <- s.inflight :: s.inflight[k] != id
    ensures forall f <- Led(s, id).flights :: FlightOk(Led(s, id), f)
    ensures forall k <- Led(s, id).inflight :: InflightOk(Led(s, id), k)
  {
    hide Inv, ThreadOk, Names, Select, FlightOk, InflightOk;
    InvFlights(s);
    forall f <- Led(s, id).flights
      ensures FlightOk(Led(s, id), f)
    {
      LedFlight(s, id, f);
    }
    forall k <- Led(s, id).inflight
      ensures InflightOk(Led(s, id), k)
    {
      LedInflight(s, id, k);
    }
  }

  lemma LedFlight(s: State, id: ThreadId, f: ThreadId)
    requires id in s.threads && !s.threads[id].kind.Warm?
    requires f == id || (f in s.flights && FlightOk(s, f))
    ensures FlightOk(Led(s, id), f)
  {
  }

  lemma LedInflight(s: State, id: ThreadId, k: Key)
    requires id in s.threads && !s.threads[id].kind.Warm?
    requires k == s.threads[id].key || (k in s.inflight && s.inflight[k] != id && InflightOk(s, k))
    ensures InflightOk(Led(s, id), k)
  {
  }

  lemma ClearKeeps(s: State, id: ThreadId, o: Outcome)
    requires Inv(s) && id in s.threads && s.threads[id].pc == Clear(o)
    ensures Inv(Cleared(s, id, o))
  {
    hide Inv, Names, Select, CacheOk, FlightOk, InflightOk, TaskOk;
    var t := Cleared(s, id, o);
    Parts(s, id);
    ClearedOk(s, id, o);
    hide ThreadOk;
    GateStays(s.threads, id, t.threads[id]);
    OthersClear(s, id);
    OthersKeep(s, t, id);
    ClearedFlights(s, id, o);
    TasksKeep(s, t, id);
    Assemble(t);
  }

  lemma ClearedOk(s: State, id: ThreadId, o: Outcome)
    requires id in s.threads && s.threads[id].pc == Clear(o) && ThreadOk(s, id)
    ensures ThreadOk(Cleared(s, id, o), id)
  {
    hide Names, Select;
  }

  lemma OthersClear(s: State, id: ThreadId)
    requires Inv(s) && id in s.threads && Leads(s.threads[id])
    ensures forall i <- s.threads :: i != id ==>
      FlightMatches(s.flights, s.inflight - {s.threads[id].key}, i, s.threads[i])
      && TaskMatches(s.tasks, i, s.threads[i])
  {
    hide Inv, HoldsGood, KindOk, Names, Select;
    Parts(s, id);
    forall i <- s.threads | i != id
      ensures FlightMatches(s.flights, s.inflight - {s.threads[id].key}, i, s.threads[i])
        && TaskMatches(s.tasks, i, s.threads[i])
    {
      Parts(s, i);
    }
  }

  lemma ClearedFlights(s: State, id: ThreadId, o: Outcome)
    requires Inv(s) && id in s.threads && s.threads[id].pc == Clear(o)
    ensures forall f <- Cleared(s, id, o).flights :: FlightOk(Cleared(s, id, o), f)
    ensures forall k <- Cleared(s, id, o).inflight :: InflightOk(Cleared(s, id, o), k)
  {
    hide Inv, HoldsGood, TaskMatches, Names, Select, FlightOk, InflightOk;
    Parts(s, id);
    InvFlights(s);
    forall f <- Cleared(s, id, o).flights
      ensures FlightOk(Cleared(s, id, o), f)
    {
      ClearedFlight(s, id, o, f);
    }
    forall k <- Cleared(s, id, o).inflight
      ensures InflightOk(Cleared(s, id, o), k)
    {
      OtherInflight(s, id, o, k);
    }
  }

  lemma ClearedFlight(s: State, id: ThreadId, o: Outcome, f: ThreadId)
    requires id in s.threads && s.threads[id].pc == Clear(o) && !s.threads[id].kind.Warm?
    requires f in s.flights && FlightOk(s, f)
    ensures FlightOk(Cleared(s, id, o), f)
  {
  }

  lemma OtherInflight(s: State, id: ThreadId, o: Outcome, k: Key)
    requires id in s.threads && s.threads[id].pc == Clear(o)
    requires id in s.flights && s.flights[id].key == s.threads[id].key
    requires k in s.inflight && k != s.threads[id].key && InflightOk(s, k)
    ensures InflightOk(Cleared(s, id, o), k)
  {
  }

  lemma ResolveKeeps(s: State, id: ThreadId, o: Outcome)
    requires Inv(s) && id in s.threads && s.threads[id].pc == Announce(o)
    ensures Inv(Resolved(s, id, o))
  {
    hide Inv, Names, Select, CacheOk, FlightOk, InflightOk, TaskOk;
    var t := Resolved(s, id, o);
    Parts(s, id);
    ResolvedOk(s, id, o);
    hide ThreadOk;
    GateStays(s.threads, id, t.threads[id]);
    OthersResolve(s, id, o);
    OthersKeep(s, t, id);
    ResolvedFlights(s, id, o);
    TasksKeep(s, t, id);
    Assemble(t);
  }

  lemma ResolvedOk(s: State, id: ThreadId, o: Outcome)
    requires id in s.threads && s.threads[id].pc == Announce(o) && ThreadOk(s, id)
    ensures ThreadOk(Resolved(s, id, o), id)
  {
    hide Names, Select;
  }

  lemma OthersResolve(s: State, id: ThreadId, o: Outcome)
    requires Inv(s) && id in s.threads && s.threads[id].pc == Announce(o)
    ensures forall i <- s.threads :: i != id ==>
      FlightMatches(s.flights[id := Flight(s.threads[id].key, Some(o))], s.inflight, i, s.threads[i])
      && TaskMatches(s.tasks, i, s.threads[i])
  {
    hide Inv, HoldsGood, KindOk, Names, Select;
    Parts(s, id);
    InvFlights(s);
    assert FlightOk(s, id);
    forall i <- s.threads | i != id
      ensures FlightMatches(s.flights[id := Flight(s.threads[id].key, Some(o))], s.inflight, i, s.threads[i])
        && TaskMatches(s.tasks, i, s.threads[i])
    {
      Parts(s, i);
    }
  }

  lemma ResolvedFlights(s: State, id: ThreadId, o: Outcome)
    requires Inv(s) && id in s.threads && s.threads[id].pc == Announce(o)
    ensures forall f <- Resolved(s, id, o).flights :: FlightOk(Resolved(s, id, o), f)
    ensures forall k <- Resolved(s, id, o).inflight :: InflightOk(Resolved(s, id, o), k)
  {
    hide Inv, HoldsGood, TaskMatches, Names, Select, FlightOk, InflightOk;
    Parts(s, id);
    InvFlights(s);
    forall f <- Resolved(s, id, o).flights
      ensures FlightOk(Resolved(s, id, o), f)
    {
      ResolvedFlight(s, id, o, f);
    }
    forall k <- Resolved(s, id, o).inflight
      ensures InflightOk(Resolved(s, id, o), k)
    {
      StillInflight(s, id, o, k);
    }
  }

  lemma ResolvedFlight(s: State, id: ThreadId, o: Outcome, f: ThreadId)
    requires id in s.threads && s.threads[id].pc == Announce(o) && s.threads[id].flight == Some(id)
    requires f in Resolved(s, id, o).flights && (f in s.flights ==> FlightOk(s, f))
    ensures FlightOk(Resolved(s, id, o), f)
  {
  }

  lemma StillInflight(s: State, id: ThreadId, o: Outcome, k: Key)
    requires id in s.threads && s.threads[id].pc == Announce(o) && k in s.inflight && InflightOk(s, k)
    ensures InflightOk(Resolved(s, id, o), k)
  {
  }

  // ---- the gate and the query ----------------------------------------------------------------------

  lemma GateMoves(s: State, t: State, id: ThreadId, k: Thread)
    requires GateOk(s) && id in s.threads && t.threads == s.threads[id := k] && t.capacity == s.capacity
    requires t.others == s.others
    requires t.free == if k.pc.Query? == s.threads[id].pc.Query? then s.free
                       else if k.pc.Query? then s.free - 1 else s.free + 1
    ensures GateOk(t)
  {
    HoldersUpdate(s.threads, id, k);
    var h := Holders(s.threads);
    assert s.threads[id].pc.Query? ==> h == (h - {id}) + {id};
    assert k.pc.Query? == s.threads[id].pc.Query? ==> Holders(t.threads) == h;
  }

  lemma AcquireKeeps(s: State, id: ThreadId)
    requires Inv(s) && id in s.threads && s.threads[id].pc.AwaitGate? && s.free > 0
    ensures Inv(Acquired(s, id))
  {
    hide Inv, Names, Select, CacheOk, GateOk, Holders;
    var t := Acquired(s, id);
    Parts(s, id);
    GateMoves(s, t, id, t.threads[id]);
    MoveKeeps(s, id, t.threads[id], t);
  }

  lemma AnswerKeeps(s: State, id: ThreadId, o: Outcome)
    requires Inv(s) && id in s.threads && s.threads[id].pc.Query? && Honest(s.catalog, s.cap, s.threads[id].key, o)
    ensures Inv(Answered(s, id, o))
  {
    hide Inv, Names, Select, CacheOk, GateOk, Holders;
    var t := Answered(s, id, o);
    Parts(s, id);
    GateMoves(s, t, id, t.threads[id]);
    MoveKeeps(s, id, t.threads[id], t);
  }

  lemma PutKeeps(s: State, id: ThreadId, l: Listing, kept: bool)
    requires Inv(s) && id in s.threads && s.threads[id].pc == Store(l)
    ensures Inv(Stored(s, id, l, kept))
  {
    hide Inv, Names, Select, GateOk, Holders;
    var t := Stored(s, id, l, kept);
    Parts(s, id);
    GateMoves(s, t, id, t.threads[id]);
    MoveKeeps(s, id, t.threads[id], t);
  }

  // ---- prefetch tasks ------------------------------------------------------------------------------

  lemma RetireKeeps(s: State, id: ThreadId, task: TaskId)
    requires Inv(s) && id in s.threads && s.threads[id].kind == Prefetch(task) && s.threads[id].pc.Done?
    requires task in s.tasks && s.tasks[task].phase == Running(id)
    ensures Inv(Retired(s, task))
  {
    hide Inv, Names, Select, CacheOk, GateOk;
    var t := Retired(s, task);
    Parts(s, id);
    InvFlights(s);
    InvTasks(s);
    forall i <- t.threads
      ensures ThreadOk(t, i)
    {
      Parts(s, i);
    }
    forall f <- t.flights
      ensures FlightOk(t, f)
    {
      assert FlightOk(s, f);
    }
    forall k <- t.inflight
      ensures InflightOk(t, k)
    {
      assert InflightOk(s, k);
    }
    forall other <- t.tasks
      ensures TaskOk(t, other)
    {
      assert TaskOk(s, other);
    }
    SameGate(s, t);
    assert Inv(t) by {
      hide ThreadOk, FlightOk, InflightOk, TaskOk;
      Assemble(t);
    }
  }

  lemma SameGate(s: State, t: State)
    requires GateOk(s) && t.threads == s.threads && t.capacity == s.capacity && t.free + t.others == s.free + s.others
    ensures GateOk(t)
  {
  }

  lemma SpawnKeeps(s: State, id: ThreadId, kind: Kind, path: string, filter: TypeFilter, name: string)
    requires Inv(s) && Step(s, Spawn(id, kind, path, filter, name)).Some?
    ensures Inv(Step(s, Spawn(id, kind, path, filter, name)).value)
  {
    var k := NewThread(kind, path, filter, name);
    NewcomerKeeps(s, id, k, s.tasks);
  }

  // A request that starts: for a prefetch, its task has just been marked as running.
  lemma NewcomerKeeps(s: State, id: ThreadId, k: Thread, tasks: map<TaskId, Task>)
    requires Inv(s) && id !in s.threads && k.pc.Start? && k.flight.None?
    requires k.kind.Warm? ==> k.key == k.key.Whole()
    requires if k.kind.Prefetch? then k.kind.task in s.tasks && s.tasks[k.kind.task].phase.Queued?
                                      && tasks == s.tasks[k.kind.task := s.tasks[k.kind.task].(phase := Running(id))]
             else tasks == s.tasks
    ensures Inv(s.(threads := s.threads[id := k], tasks := tasks))
  {
    hide Inv, Names, Select, CacheOk;
    var t := s.(threads := s.threads[id := k], tasks := tasks);
    InvShared(s);
    NotInFlight(s, id);
    GateStays(s.threads, id, k);
    OthersNew(s, k, tasks, id);
    OthersKeep(s, t, id);
    EnteredFlights(s, t, id);
    NewTasks(s, t, id);
    assert GateOk(t);
    assert Inv(t) by { hide GateOk, ThreadOk, FlightOk, InflightOk, TaskOk; Assemble(t); }
  }

  lemma InvShared(s: State)
    requires Inv(s)
    ensures CacheOk(s.catalog, s.cap, s.cache) && GateOk(s)
    ensures forall path <- s.registry :: s.registry[path] in s.tasks
  {
    hide ThreadOk, CacheOk, GateOk, FlightOk, InflightOk, TaskOk;
  }

  lemma OthersNew(s: State, k: Thread, tasks: map<TaskId, Task>, id: ThreadId)
    requires Inv(s) && id !in s.threads
    requires if k.kind.Prefetch? then k.kind.task in s.tasks && s.tasks[k.kind.task].phase.Queued?
                                      && tasks == s.tasks[k.kind.task := s.tasks[k.kind.task].(phase := Running(id))]
             else tasks == s.tasks
    ensures forall i <- s.threads ::
      FlightMatches(s.flights, s.inflight, i, s.threads[i]) && TaskMatches(tasks, i, s.threads[i])
  {
    hide Inv, HoldsGood, KindOk, Names, Select;
    forall i <- s.threads
      ensures FlightMatches(s.flights, s.inflight, i, s.threads[i]) && TaskMatches(tasks, i, s.threads[i])
    {
      Parts(s, i);
    }
  }

  lemma NewTasks(s: State, t: State, id: ThreadId)
    requires Inv(s) && id !in s.threads && id in t.threads && t.threads == s.threads[id := t.threads[id]]
    requires var kind := t.threads[id].kind;
             if kind.Prefetch? then kind.task in s.tasks
                                    && t.tasks == s.tasks[kind.task := s.tasks[kind.task].(phase := Running(id))]
             else t.tasks == s.tasks
    ensures forall task <- t.tasks :: TaskOk(t, task)
  {
    hide Inv, Names, Select;
    InvTasks(s);
    forall task <- t.tasks
      ensures TaskOk(t, task)
    {
      assert task in s.tasks && TaskOk(s, task);
    }
  }

  lemma PickUpKeeps(s: State, task: TaskId, id: ThreadId)
    requires Inv(s) && Step(s, PickUp(task, id)).Some?
    ensures Inv(Step(s, PickUp(task, id)).value)
  {
    hide Inv;
    var tasks := s.tasks[task := s.tasks[task].(phase := Running(id))];
    NewcomerKeeps(s, id, NewThread(Prefetch(task), s.tasks[task].path, AnyType, ""), tasks);
  }

  // Steps that leave requests and flights alone.
  lemma RestKeeps(s: State, t: State)
    requires Inv(s) && CacheOk(t.catalog, t.cap, t.cache)
    requires t.catalog == s.catalog && t.cap == s.cap && t.threads == s.threads
    requires t.flights == s.flights && t.inflight == s.inflight
    requires s.tasks.Keys <= t.tasks.Keys && forall task <- s.tasks :: t.tasks[task] == s.tasks[task]
    requires forall task <- t.tasks :: task in s.tasks || t.tasks[task].phase.Queued?
    requires forall path <- t.registry :: t.registry[path] in t.tasks
    requires t.capacity == s.capacity && t.free + t.others == s.free + s.others
    ensures Inv(t)
  {
    hide Inv, Names, Select, CacheOk;
    InvShared(s);
    InvFlights(s);
    InvTasks(s);
    forall i <- t.threads
      ensures ThreadOk(t, i)
    {
      Parts(s, i);
    }
    forall f <- t.flights
      ensures FlightOk(t, f)
    {
      assert FlightOk(s, f);
    }
    forall k <- t.inflight
      ensures InflightOk(t, k)
    {
      assert InflightOk(s, k);
    }
    forall task <- t.tasks
      ensures TaskOk(t, task)
    {
      assert task in s.tasks ==> TaskOk(s, task);
    }
    assert Inv(t) by { hide ThreadOk, FlightOk, InflightOk, TaskOk; Assemble(t); }
  }

  lemma SharedKeeps(s: State, e: Event)
    requires Inv(s) && Step(s, e).Some?
    requires e.Submit? || e.Forget? || e.Evict? || e.Take? || e.Give?
    ensures Inv(Step(s, e).value)
  {
    hide Inv, Names, Select, ThreadStep, CacheOk, GateOk;
    InvShared(s);
    match e
    case Submit(task, path) =>
      RestKeeps(s, s.(tasks := s.tasks[task := Task(path, Queued)], registry := s.registry[path := task]));
    case Forget(task) =>
      RestKeeps(s, s);
      RestKeeps(s, s.(registry := s.registry - {s.tasks[task].path}));
    case Evict(key) =>
      EvictOk(s, key);
      RestKeeps(s, s.(cache := s.cache - {key}));
    case Take => RestKeeps(s, s.(free := s.free - 1, others := s.others + 1));
    case Give => RestKeeps(s, s.(free := s.free + 1, others := s.others - 1));
  }

  lemma EvictOk(s: State, key: Key)
    requires CacheOk(s.catalog, s.cap, s.cache)
    ensures CacheOk(s.catalog, s.cap, s.cache - {key})
  {
  }

  // ---- every step, every run -----------------------------------------------------------------------

  lemma EarlyInv(s: State, id: ThreadId, e: Event)
    requires Inv(s) && id in s.threads && EarlyStep(s, id, s.threads[id], e).Some?
    ensures Inv(EarlyStep(s, id, s.threads[id], e).value)
  {
    hide Inv, Moved, Entered, CancelledTask, Dropped, Followed, Led;
    var t := s.threads[id];
    match t.pc
    case Start => EnterKeeps(s, id, e.epoch);
    case FindPrefetch => FindKeeps(s, id);
    case TryCancel(task) => CancelKeeps(s, id, task);
    case DropPrefetch => DropKeeps(s, id);
    case AwaitPrefetch(_) => WakeKeeps(s, id);
    case LookUp =>
      if t.key in s.cache && (e.live || !t.kind.Warm?) {
        LookKeeps(s, id, Done(Value(s.cache[t.key])));
      } else {
        LookKeeps(s, id, if t.kind.Warm? then AwaitGate else JoinFlight);
      }
    case JoinFlight =>
      if t.key in s.inflight {
        FollowKeeps(s, id);
      } else {
        LeadKeeps(s, id);
      }
  }

  lemma LateInv(s: State, id: ThreadId, e: Event)
    requires Inv(s) && id in s.threads && LateStep(s, id, s.threads[id], e).Some?
    ensures Inv(LateStep(s, id, s.threads[id], e).value)
  {
    hide Inv, Moved, Acquired, Answered, Stored, Cleared, Resolved, Retired, Honest, Derivable, Derived;
    var t := s.threads[id];
    match t.pc
    case Follow(f) => ObtainKeeps(s, id, f);
    case Decide => ChooseKeeps(s, id);
    case AwaitGate => AcquireKeeps(s, id);
    case Query => AnswerKeeps(s, id, e.outcome);
    case Store(l) => PutKeeps(s, id, l, e.kept);
    case Clear(o) => ClearKeeps(s, id, o);
    case Announce(o) => ResolveKeeps(s, id, o);
    case Done(_) => RetireKeeps(s, id, t.kind.task);
  }

  lemma ThreadStepInv(s: State, e: Event)
    requires Inv(s) && Own(e) && ThreadStep(s, e).Some?
    ensures Inv(ThreadStep(s, e).value)
  {
    hide Inv, EarlyStep, LateStep;
    if Early(s.threads[e.id].pc) {
      EarlyInv(s, e.id, e);
    } else {
      LateInv(s, e.id, e);
    }
  }

  lemma StepInv(s: State, e: Event)
    requires Inv(s) && Step(s, e).Some?
    ensures Inv(Step(s, e).value)
  {
    hide Inv, ThreadStep;
    match e
    case Spawn(id, kind, path, filter, name) => SpawnKeeps(s, id, kind, path, filter, name);
    case PickUp(task, id) => PickUpKeeps(s, task, id);
    case Submit(_, _) => SharedKeeps(s, e);
    case Forget(_) => SharedKeeps(s, e);
    case Evict(_) => SharedKeeps(s, e);
    case Take => SharedKeeps(s, e);
    case Give => SharedKeeps(s, e);
    case _ => ThreadStepInv(s, e);
  }

  lemma {:induction false} RunInv(catalog: Catalog, cap: nat, permits: nat, events: seq<Event>)
    requires Run(Init(catalog, cap, permits), events).Some?
    ensures Inv(Run(Init(catalog, cap, permits), events).value)
  {
    hide Inv, Step, Init;
    if events == [] {
      InitInv(catalog, cap, permits);
    } else {
      var before := events[..|events| - 1];
      RunInv(catalog, cap, permits, before);
      StepInv(Run(Init(catalog, cap, permits), before).value, events[|events| - 1]);
    }
  }
}
