/**
 What requests for listings can rely on over whole runs: every answer describes one
 snapshot, computations are shared, and nobody waits for ever.
 */
module ListingRuns {
  import opened Wrappers
  import opened RollupSpec
  import opened ListingSpec
  import opened Listings
  import opened ListingProtocol
  import opened ListingInvariant
  import opened ListingFrame

  // Every run in this module starts with an empty cache and an idle gate.
  ghost function After(catalog: Catalog, cap: nat, permits: nat, events: seq<Event>): Option<State> {
    Run(Init(catalog, cap, permits), events)
  }

  lemma {:induction false} Constants(catalog: Catalog, cap: nat, permits: nat, events: seq<Event>)
    requires After(catalog, cap, permits, events).Some?
    ensures var s := After(catalog, cap, permits, events).value;
            s.catalog == catalog && s.cap == cap && s.capacity == permits
  {
    if events != [] {
      var before, e := events[..|events| - 1], events[|events| - 1];
      Constants(catalog, cap, permits, before);
      StepConstants(After(catalog, cap, permits, before).value, e);
    }
  }

  lemma StepConstants(s: State, e: Event)
    requires Step(s, e).Some?
    ensures var t := Step(s, e).value; t.catalog == s.catalog && t.cap == s.cap && t.capacity == s.capacity
  {
    hide ThreadStep, RunningTasks, QueuedTasks, Rank;
    if Own(e) {
      if e.Retire? {
        RetireOnly(s, e);
      } else {
        OwnFrame(s, e);
      }
    }
  }

  // Steps of requests themselves, and the return of permits by rollups.  The bounded wait
  // for a prefetch is not needed: its timeout does not count.
  predicate Advances(e: Event) {
    !e.Spawn? && !e.Submit? && !e.PickUp? && !e.Forget? && !e.Evict? && !e.Take? && !e.Timeout?
  }

  // ---- coherence --------------------------------------------------------------------------

  // Through any interleaving, eviction and change of epoch: a cached entry, and every answer
  // given, is what a direct capped query of the snapshot named by its key says.
  lemma AnswersAreCoherent(catalog: Catalog, cap: nat, permits: nat, events: seq<Event>, key: Key, id: ThreadId)
    requires After(catalog, cap, permits, events).Some?
    ensures var s := After(catalog, cap, permits, events).value;
            && (key in s.cache ==> Names(catalog, cap, key, s.cache[key]))
            && (id in s.threads && s.threads[id].pc.Done? && s.threads[id].pc.outcome.Value? ==>
                  Names(catalog, cap, s.threads[id].key, s.threads[id].pc.outcome.listing))
  {
    RunInv(catalog, cap, permits, events);
    Constants(catalog, cap, permits, events);
    var s := After(catalog, cap, permits, events).value;
    InvShared(s);
    if id in s.threads {
      hide Inv, Names;
      Parts(s, id);
    }
  }

  // ---- single flight --------------------------------------------------------------------------

  // At most one computation runs for a key.
  lemma OneComputationPerKey(catalog: Catalog, cap: nat, permits: nat, events: seq<Event>, a: ThreadId, b: ThreadId)
    requires After(catalog, cap, permits, events).Some?
    requires var s := After(catalog, cap, permits, events).value;
             a in s.threads && b in s.threads && Leads(s.threads[a]) && Leads(s.threads[b])
             && s.threads[a].key == s.threads[b].key
    ensures a == b
  {
    hide Inv, Names;
    RunInv(catalog, cap, permits, events);
    var s := After(catalog, cap, permits, events).value;
    Parts(s, a);
    Parts(s, b);
  }

  // Whoever followed or led a flight ends with that flight's outcome, which is the leader's.
  lemma FollowersGetTheLeadersOutcome(catalog: Catalog, cap: nat, permits: nat, events: seq<Event>, id: ThreadId)
    requires After(catalog, cap, permits, events).Some?
    requires var s := After(catalog, cap, permits, events).value;
             id in s.threads && s.threads[id].pc.Done? && s.threads[id].flight.Some?
    ensures var s := After(catalog, cap, permits, events).value;
            var f := s.threads[id].flight.value;
            && f in s.flights && s.flights[f].key == s.threads[id].key
            && s.flights[f].outcome == Some(s.threads[id].pc.outcome)
            && f in s.threads && s.threads[f].pc == s.threads[id].pc
  {
    hide Names, Select;
    RunInv(catalog, cap, permits, events);
    var s := After(catalog, cap, permits, events).value;
    Parts(s, id);
    ResolvedIsHonest(s, s.threads[id].flight.value);
  }

  // A flight's outcome is set once.
  lemma OutcomeIsFinal(s: State, e: Event, f: ThreadId)
    requires Inv(s) && Step(s, e).Some? && f in s.flights && s.flights[f].outcome.Some?
    ensures f in Step(s, e).value.flights && Step(s, e).value.flights[f] == s.flights[f]
  {
    hide Inv, Names, ThreadStep, RunningTasks, QueuedTasks, Rank;
    ResolvedIsHonest(s, f);
    if Own(e) {
      if e.Retire? {
        RetireOnly(s, e);
      } else {
        OwnFrame(s, e);
      }
    }
  }

  // ---- what is shared is shared within bounds -------------------------------------------------

  // Queries and rollups together never hold more permits than the gate has.
  lemma GateIsBounded(catalog: Catalog, cap: nat, permits: nat, events: seq<Event>)
    requires After(catalog, cap, permits, events).Some?
    ensures var s := After(catalog, cap, permits, events).value;
            |set id <- s.threads | s.threads[id].pc.Query?| + s.others <= permits
  {
    hide CacheOk;
    RunInv(catalog, cap, permits, events);
    Constants(catalog, cap, permits, events);
    var s := After(catalog, cap, permits, events).value;
    InvShared(s);
    assert (set id <- s.threads | s.threads[id].pc.Query?) == Holders(s.threads);
  }

  // The pool never runs more than two prefetches at a time.
  lemma PoolIsBounded(catalog: Catalog, cap: nat, permits: nat, events: seq<Event>)
    requires After(catalog, cap, permits, events).Some?
    ensures var s := After(catalog, cap, permits, events).value;
            |set task <- s.tasks | s.tasks[task].phase.Running?| <= 2
  {
    RunningIsBounded(catalog, cap, permits, events);
    var s := After(catalog, cap, permits, events).value;
    assert (set task <- s.tasks | s.tasks[task].phase.Running?) == RunningTasks(s.tasks);
  }

  lemma {:induction false} RunningIsBounded(catalog: Catalog, cap: nat, permits: nat, events: seq<Event>)
    requires After(catalog, cap, permits, events).Some?
    ensures |RunningTasks(After(catalog, cap, permits, events).value.tasks)| <= 2
  {
    hide Step;
    if events == [] {
      assert RunningTasks(Init(catalog, cap, permits).tasks) == {};
    } else {
      var before, e := events[..|events| - 1], events[|events| - 1];
      RunningIsBounded(catalog, cap, permits, before);
      PoolStep(After(catalog, cap, permits, before).value, e);
    }
  }

  lemma PoolStep(s: State, e: Event)
    requires Step(s, e).Some? && |RunningTasks(s.tasks)| <= 2
    ensures |RunningTasks(Step(s, e).value.tasks)| <= 2
  {
    hide ThreadStep, QueuedTasks, Rank;
    var t := Step(s, e).value;
    if e.PickUp? {
      hide Step;
      StartsOne(s, e);
    } else if e.Submit? {
      assert RunningTasks(t.tasks) == RunningTasks(s.tasks);
    } else if Own(e) {
      hide RunningTasks;
      if e.Retire? {
        RetireOnly(s, e);
        EndsOne(s, s.threads[e.id].kind.task);
      } else {
        OwnFrame(s, e);
      }
    }
  }

  lemma StartsOne(s: State, e: Event)
    requires e.PickUp? && Step(s, e).Some?
    ensures |RunningTasks(Step(s, e).value.tasks)| <= 2
  {
    assert RunningTasks(Step(s, e).value.tasks) == RunningTasks(s.tasks) + {e.task};
  }

  lemma EndsOne(s: State, task: TaskId)
    requires task in s.tasks
    ensures |RunningTasks(Retired(s, task).tasks)| <= |RunningTasks(s.tasks)|
  {
    assert RunningTasks(Retired(s, task).tasks) == RunningTasks(s.tasks) - {task};
  }

  // ---- nobody waits for ever ------------------------------------------------------------------

  predicate Unfinished(s: State, id: ThreadId) {
    id in s.threads && !s.threads[id].pc.Done?
  }

  lemma AnyHolder(s: State) returns (holder: ThreadId)
    requires Inv(s) && s.capacity > 0 && s.free == 0 && s.others == 0
    ensures holder in s.threads && s.threads[holder].pc.Query?
  {
    hide Inv, CacheOk;
    InvShared(s);
    assert Holders(s.threads) != {};
    holder :| holder in Holders(s.threads);
  }

  // At the gate: a permit is free, a rollup can return one, or a query can end.
  lemma GateAdvances(s: State, id: ThreadId) returns (e: Event)
    requires Inv(s) && s.capacity > 0 && id in s.threads && s.threads[id].pc.AwaitGate?
    ensures Advances(e) && Step(s, e).Some?
  {
    hide Inv, Names;
    if s.free > 0 {
      return Acquire(id);
    }
    if s.others > 0 {
      return Give;
    }
    var holder := AnyHolder(s);
    e := Answer(holder, Error);
  }

  lemma LeaderAdvances(s: State, id: ThreadId) returns (e: Event)
    requires Inv(s) && s.capacity > 0 && Unfinished(s, id)
    requires !s.threads[id].pc.AwaitPrefetch? && !s.threads[id].pc.Follow?
    ensures Advances(e) && Step(s, e).Some?
  {
    hide HoldsGood, FlightMatches;
    hide Names, Inv, Derivable, Derived;
    Parts(s, id);
    match s.threads[id].pc
    case Start => e := Enter(id, None);
    case FindPrefetch => e := Find(id);
    case TryCancel(_) => e := CancelTask(id);
    case DropPrefetch => e := Drop(id);
    case LookUp => e := Look(id, true);
    case JoinFlight => e := Join(id);
    case Decide => e := Choose(id);
    case AwaitGate => e := GateAdvances(s, id);
    case Query => e := Answer(id, Error);
    case Store(_) => e := ListingProtocol.Put(id, true);
    case Clear(_) => e := ClearFlight(id);
    case Announce(_) => e := Resolve(id);
  }

  lemma FollowerAdvances(s: State, id: ThreadId) returns (e: Event)
    requires Inv(s) && s.capacity > 0 && Unfinished(s, id) && !s.threads[id].pc.AwaitPrefetch?
    ensures Advances(e) && Step(s, e).Some?
  {
    hide Names, Inv, Derivable, Derived;
    if s.threads[id].pc.Follow? {
      var f := s.threads[id].pc.flight;
      Parts(s, id);
      InvFlights(s);
      assert FlightOk(s, f);
      if s.flights[f].outcome.Some? {
        e := Obtain(id);
      } else {
        e := LeaderAdvances(s, f);
      }
    } else {
      e := LeaderAdvances(s, id);
    }
  }

  // Waits only go from prefetch to flight to gate to backend, so in every reachable state
  // with an unfinished request some request can move.
  lemma NoDeadlock(catalog: Catalog, cap: nat, permits: nat, events: seq<Event>, id: ThreadId) returns (e: Event)
    requires After(catalog, cap, permits, events).Some? && permits > 0
    requires Unfinished(After(catalog, cap, permits, events).value, id)
    ensures Advances(e) && After(catalog, cap, permits, events + [e]).Some?
  {
    hide Names, Inv, Step;
    RunInv(catalog, cap, permits, events);
    Constants(catalog, cap, permits, events);
    var s := After(catalog, cap, permits, events).value;
    e := AwaiterAdvances(s, id);
    assert (events + [e])[..|events|] == events;
  }

  lemma AwaiterAdvances(s: State, id: ThreadId) returns (e: Event)
    requires Inv(s) && s.capacity > 0 && Unfinished(s, id)
    ensures Advances(e) && Step(s, e).Some?
  {
    hide Names, Inv, Derivable, Derived;
    if s.threads[id].pc.AwaitPrefetch? {
      var task := s.threads[id].pc.task;
      Parts(s, id);
      InvTasks(s);
      assert TaskOk(s, task);
      match s.tasks[task].phase
      case Finished => e := Wake(id);
      case Running(worker) =>
        Parts(s, worker);
        if s.threads[worker].pc.Done? {
          e := Retire(worker);
        } else {
          e := FollowerAdvances(s, worker);
        }
    } else {
      e := FollowerAdvances(s, id);
    }
  }

  // ---- and every request takes a bounded number of steps -----------------------------------------

  // A request never steps back, and each of its own steps but the last mark of a prefetch
  // brings it closer to its end.
  lemma RequestsMoveForward(s: State, e: Event, id: ThreadId)
    requires Step(s, e).Some? && id in s.threads
    ensures var t := Step(s, e).value;
            && id in t.threads && t.threads[id].kind == s.threads[id].kind
            && Rank(t.threads[id].pc) >= Rank(s.threads[id].pc)
            && (Own(e) && !e.Retire? && e.id == id ==> Rank(t.threads[id].pc) > Rank(s.threads[id].pc))
  {
    hide ThreadStep, RunningTasks, QueuedTasks, Rank;
    if Own(e) {
      if e.Retire? {
        RetireOnly(s, e);
      } else {
        OwnFrame(s, e);
      }
    }
  }
}
