/**
 Requests drain.  Once no request, prefetch or rollup arrives, every step that advances
 one, the start of a prefetch submitted earlier included, spends a finite total; and a run
 that can take no such step has answered every request, ended or cancelled every prefetch
 and returned every permit.
 */
module ListingDrain {
  import opened Listings
  import opened ListingFrame
  import opened ListingInvariant
  import opened ListingProtocol
  import opened ListingRuns
  import opened Maps
  import opened Sets
  import opened Wrappers

  // No new request, no prefetch submitted, and no rollup taking a permit.
  predicate Quiet(e: Event) {
    !e.Spawn? && !e.Submit? && !e.Take?
  }

  // Steps that bring a request, a prefetch or a rollup's permit closer to its end.
  predicate Spends(e: Event) { Own(e) || e.PickUp? || e.Give? }

  // Those of them that no timeout has to bring about.
  predicate Proceeds(e: Event) { Advances(e) || e.PickUp? }

  // The steps a request may still take.
  function Ahead(t: Thread): nat { 12 - Rank(t.pc) }

  // What is left to do: the requests' own steps, the prefetches to start or to mark as ended
  // and the permits that rollups hold.
  ghost function Work(s: State): nat {
    Sum(s.threads, Ahead) + 14 * |QueuedTasks(s.tasks)| + |RunningTasks(s.tasks)| + s.others
  }

  lemma MoveSpends(s: State, id: ThreadId, t: State)
    requires Framed(s, id, t)
    ensures Work(t) < Work(s)
  {
    SumUpdate(s.threads, Ahead, id, t.threads[id]);
    SubsetCard(QueuedTasks(t.tasks), QueuedTasks(s.tasks));
  }

  lemma RetireSpends(s: State, task: TaskId)
    requires task in s.tasks && s.tasks[task].phase.Running?
    ensures Work(Retired(s, task)) < Work(s)
  {
    assert RunningTasks(Retired(s, task).tasks) == RunningTasks(s.tasks) - {task};
    assert QueuedTasks(Retired(s, task).tasks) == QueuedTasks(s.tasks);
  }

  lemma PickUpSpends(s: State, task: TaskId, id: ThreadId)
    requires task in s.tasks && s.tasks[task].phase.Queued? && id !in s.threads
    ensures Work(PickedUp(s, task, id)) < Work(s)
  {
    hide Step, ThreadStep;
    var t := PickedUp(s, task, id);
    assert RunningTasks(t.tasks) == RunningTasks(s.tasks) + {task};
    assert QueuedTasks(t.tasks) == QueuedTasks(s.tasks) - {task};
    SumInsert(s.threads, Ahead, id, t.threads[id]);
  }

  // Without arrivals no step adds to what is left, and every advancing one takes from it.
  lemma QuietStep(s: State, e: Event)
    requires Step(s, e).Some? && Quiet(e)
    ensures Work(Step(s, e).value) + (if Spends(e) then 1 else 0) <= Work(s)
  {
    hide ThreadStep, RunningTasks, QueuedTasks, Ahead;
    if e.PickUp? {
      PickUpSpends(s, e.task, e.id);
    } else if Own(e) {
      hide Framed, Work;
      if e.Retire? {
        RetireOnly(s, e);
        RetireSpends(s, s.threads[e.id].kind.task);
      } else {
        OwnFrame(s, e);
        MoveSpends(s, e.id, ThreadStep(s, e).value);
      }
    }
  }

  function SpendingSteps(events: seq<Event>): nat {
    if events == [] then 0 else
    SpendingSteps(events[..|events| - 1]) + if Spends(events[|events| - 1]) then 1 else 0
  }

  lemma {:induction false} WorkBoundsSteps(catalog: Catalog, cap: nat, permits: nat, events: seq<Event>,
                                           more: seq<Event>)
    requires After(catalog, cap, permits, events + more).Some? && forall e <- more :: Quiet(e)
    ensures After(catalog, cap, permits, events).Some?
    ensures SpendingSteps(more) + Work(After(catalog, cap, permits, events + more).value)
            <= Work(After(catalog, cap, permits, events).value)
    decreases |more|
  {
    hide Step, Work;
    if more == [] {
      assert events + more == events;
    } else {
      var before, e := more[..|more| - 1], more[|more| - 1];
      assert more == before + [e];
      assert (events + more)[..|events + more| - 1] == events + before;
      WorkBoundsSteps(catalog, cap, permits, events, before);
      QuietStep(After(catalog, cap, permits, events + before).value, e);
    }
  }

  // ---- nothing is left over ---------------------------------------------------------------

  // Every request is answered, every prefetch ended or cancelled, and every rollup's permit
  // returned.
  predicate Idle(s: State) {
    && (forall id <- s.threads :: s.threads[id].pc.Done?)
    && (forall task <- s.tasks :: s.tasks[task].phase.Finished? || s.tasks[task].phase.Cancelled?)
    && s.others == 0
  }

  lemma AnsweredIsStill(s: State, e: Event)
    requires Idle(s) && Own(e)
    ensures ThreadStep(s, e).None?
  {
    hide EarlyStep;
  }

  lemma IdleIsStill(s: State, e: Event)
    requires Idle(s) && Proceeds(e)
    ensures Step(s, e).None?
  {
    hide ThreadStep, RunningTasks;
    if Own(e) {
      AnsweredIsStill(s, e);
    }
  }

  lemma SomethingAdvances(s: State) returns (e: Event)
    requires Inv(s) && s.capacity > 0 && !Idle(s)
    ensures Proceeds(e) && Step(s, e).Some?
  {
    hide Inv, Step;
    if id :| id in s.threads && !s.threads[id].pc.Done? {
      e := AwaiterAdvances(s, id);
    } else if s.others > 0 {
      e := Give;
      GiveAdvances(s);
    } else if task :| task in s.tasks && s.tasks[task].phase.Running? {
      e := Retire(s.tasks[task].phase.thread);
      RetireAdvances(s, task);
    } else {
      var task :| task in s.tasks && s.tasks[task].phase.Queued?;
      e := PickUpProceeds(s, task);
    }
  }

  // With no prefetch running, the pool has a thread for one that waits.
  lemma PickUpProceeds(s: State, task: TaskId) returns (e: Event)
    requires task in s.tasks && s.tasks[task].phase.Queued?
    requires forall other <- s.tasks :: !s.tasks[other].phase.Running?
    ensures e.PickUp? && Step(s, e).Some?
  {
    assert RunningTasks(s.tasks) == {};
    var id := NewThreadId(s.threads.Keys);
    e := PickUp(task, id);
  }

  lemma NewThreadId(ids: set<ThreadId>) returns (id: ThreadId)
    ensures id !in ids && forall other <- ids :: other < id
  {
    id := 0;
    if other :| other in ids {
      var above := NewThreadId(ids - {other});
      id := if above > other then above else other + 1;
      assert forall x <- ids :: x == other || x in ids - {other};
    }
  }

  lemma GiveAdvances(s: State)
    requires s.others > 0
    ensures Step(s, Give).Some?
  {
  }

  lemma RetireAdvances(s: State, task: TaskId)
    requires Inv(s) && task in s.tasks && s.tasks[task].phase.Running?
    requires forall id <- s.threads :: s.threads[id].pc.Done?
    ensures Step(s, Retire(s.tasks[task].phase.thread)).Some?
  {
    hide Inv, EarlyStep;
    InvTasks(s);
    assert TaskOk(s, task);
  }

  // After the last arrival only so many advancing steps remain, whatever else happens in
  // between, and a run that can take no more of them is idle: with a permit to share, every
  // request has its answer, and no prefetch is left in the pool.
  lemma RequestsDrain(catalog: Catalog, cap: nat, permits: nat, events: seq<Event>, more: seq<Event>)
    requires permits > 0
    requires After(catalog, cap, permits, events + more).Some? && forall e <- more :: Quiet(e)
    ensures After(catalog, cap, permits, events).Some?
    ensures SpendingSteps(more) <= Work(After(catalog, cap, permits, events).value)
    ensures var t := After(catalog, cap, permits, events + more).value;
            (forall e :: Proceeds(e) ==> Step(t, e).None?) <==> Idle(t)
  {
    hide Inv, Step, Work, Idle;
    WorkBoundsSteps(catalog, cap, permits, events, more);
    RunInv(catalog, cap, permits, events + more);
    Constants(catalog, cap, permits, events + more);
    var t := After(catalog, cap, permits, events + more).value;
    if Idle(t) {
      forall e | Proceeds(e)
        ensures Step(t, e).None?
      {
        IdleIsStill(t, e);
      }
    } else {
      var e := SomethingAdvances(t);
    }
  }
}
