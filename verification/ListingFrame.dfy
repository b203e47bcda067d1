/**
 What one step of a request may change: its own place, which only moves forward, and
 little else.
 */
module ListingFrame {
  import opened RollupSpec
  import opened Wrappers
  import opened Listings
  import opened ListingSpec
  import opened ListingProtocol

  // How far a request has come.
  function Rank(pc: Pc): nat {
    match pc
    case Start => 0
    case FindPrefetch => 1
    case TryCancel(_) => 2
    case DropPrefetch => 3
    case AwaitPrefetch(_) => 3
    case LookUp => 4
    case JoinFlight => 5
    case Follow(_) => 6
    case Decide => 6
    case AwaitGate => 7
    case Query => 8
    case Store(_) => 9
    case Clear(_) => 10
    case Announce(_) => 11
    case Done(_) => 12
  }

  ghost function QueuedTasks(tasks: map<TaskId, Task>): set<TaskId> {
    set task <- tasks | tasks[task].phase.Queued?
  }

  // Nothing but this request moved, and it moved forward; other flights are untouched.
  ghost predicate Framed(s: State, id: ThreadId, t: State) {
    && (t.catalog, t.cap, t.capacity, t.others) == (s.catalog, s.cap, s.capacity, s.others)
    && id in s.threads && id in t.threads && t.threads == s.threads[id := t.threads[id]]
    && t.threads[id].kind == s.threads[id].kind
    && Rank(t.threads[id].pc) > Rank(s.threads[id].pc)
    && RunningTasks(t.tasks) == RunningTasks(s.tasks) && QueuedTasks(t.tasks) <= QueuedTasks(s.tasks)
    && SameFlights(s, id, t)
  }

  ghost predicate SameFlights(s: State, id: ThreadId, t: State)
    requires id in s.threads
  {
    forall f <- s.flights ::
      f != id || !(s.threads[id].pc.JoinFlight? || s.threads[id].pc.Announce?) ==>
        f in t.flights && t.flights[f] == s.flights[f]
  }

  // A request moved to another place.
  lemma MovedFrame(s: State, id: ThreadId, pc: Pc)
    requires id in s.threads && Rank(pc) > Rank(s.threads[id].pc)
    ensures Framed(s, id, Moved(s, id, pc))
  {
    hide RunningTasks, QueuedTasks;
  }

  lemma EarlyFrame(s: State, id: ThreadId, e: Event)
    requires id in s.threads && Early(s.threads[id].pc) && EarlyStep(s, id, s.threads[id], e).Some?
    ensures Framed(s, id, EarlyStep(s, id, s.threads[id], e).value)
  {
    hide Framed, Moved, Entered, CancelledTask, Dropped, Followed, Led;
    var k := s.threads[id];
    match k.pc
    case Start => EnteredFrame(s, id, e.epoch);
    case FindPrefetch =>
      MovedFrame(s, id, if k.key.path in s.registry then TryCancel(s.registry[k.key.path]) else LookUp);
    case TryCancel(task) =>
      if s.tasks[task].phase.Queued? || s.tasks[task].phase.Cancelled? {
        CancelledFrame(s, id, task);
      } else {
        MovedFrame(s, id, AwaitPrefetch(task));
      }
    case DropPrefetch => DroppedFrame(s, id);
    case AwaitPrefetch(_) => MovedFrame(s, id, LookUp);
    case LookUp =>
      if k.key in s.cache && (e.live || !k.kind.Warm?) {
        MovedFrame(s, id, Done(Value(s.cache[k.key])));
      } else {
        MovedFrame(s, id, if k.kind.Warm? then AwaitGate else JoinFlight);
      }
    case JoinFlight => JoinedFrame(s, id);
  }

  lemma EnteredFrame(s: State, id: ThreadId, epoch: Epoch)
    requires id in s.threads && s.threads[id].pc.Start?
    ensures Framed(s, id, Entered(s, id, epoch))
  {
    hide RunningTasks, QueuedTasks;
  }

  lemma CancelledFrame(s: State, id: ThreadId, task: TaskId)
    requires id in s.threads && s.threads[id].pc.TryCancel? && task in s.tasks && !s.tasks[task].phase.Running?
    ensures Framed(s, id, CancelledTask(s, id, task))
  {
  }

  lemma DroppedFrame(s: State, id: ThreadId)
    requires id in s.threads && s.threads[id].pc.DropPrefetch?
    ensures Framed(s, id, Dropped(s, id))
  {
    hide RunningTasks, QueuedTasks;
  }

  lemma JoinedFrame(s: State, id: ThreadId)
    requires id in s.threads && s.threads[id].pc.JoinFlight?
    ensures s.threads[id].key in s.inflight ==> Framed(s, id, Followed(s, id))
    ensures Framed(s, id, Led(s, id))
  {
    hide RunningTasks, QueuedTasks;
  }

  lemma LateFrame(s: State, id: ThreadId, e: Event)
    requires id in s.threads && !Early(s.threads[id].pc) && !e.Retire? && LateStep(s, id, s.threads[id], e).Some?
    ensures Framed(s, id, LateStep(s, id, s.threads[id], e).value)
  {
    hide Framed, Moved, Derivable, Derived, Honest, Acquired, Answered, Stored, Cleared, Resolved;
    var k := s.threads[id];
    match k.pc
    case Follow(f) => MovedFrame(s, id, Done(s.flights[f].outcome.value));
    case Decide => MovedFrame(s, id, if Derivable(s, k.key) then Store(Derived(s, k.key)) else AwaitGate);
    case AwaitGate => GateFrame(s, id);
    case Query => AnsweredFrame(s, id, e.outcome);
    case Store(l) => StoredFrame(s, id, l, e.kept);
    case Clear(o) => ClearedFrame(s, id, o);
    case Announce(o) => ClearedFrame(s, id, o);
  }

  lemma GateFrame(s: State, id: ThreadId)
    requires id in s.threads && s.threads[id].pc.AwaitGate? && s.free > 0
    ensures Framed(s, id, Acquired(s, id))
  {
    hide RunningTasks, QueuedTasks;
  }

  lemma AnsweredFrame(s: State, id: ThreadId, o: Outcome)
    requires id in s.threads && s.threads[id].pc.Query?
    ensures Framed(s, id, Answered(s, id, o))
  {
    hide RunningTasks, QueuedTasks;
  }

  lemma StoredFrame(s: State, id: ThreadId, l: Listing, kept: bool)
    requires id in s.threads && s.threads[id].pc.Store?
    ensures Framed(s, id, Stored(s, id, l, kept))
  {
    hide RunningTasks, QueuedTasks;
  }

  lemma ClearedFrame(s: State, id: ThreadId, o: Outcome)
    requires id in s.threads
    ensures s.threads[id].pc.Clear? ==> Framed(s, id, Cleared(s, id, o))
    ensures s.threads[id].pc.Announce? ==> Framed(s, id, Resolved(s, id, o))
  {
    hide RunningTasks, QueuedTasks;
  }

  // A prefetch that has ended is marked so, and nothing else changes.
  lemma RetireFrame(s: State, id: ThreadId, e: Event)
    requires id in s.threads && e.Retire? && LateStep(s, id, s.threads[id], e).Some?
    ensures s.threads[id].kind.Prefetch?
    ensures var task, t := s.threads[id].kind.task, LateStep(s, id, s.threads[id], e).value;
            && task in s.tasks && s.tasks[task].phase.Running?
            && t == Retired(s, task)
  {
  }

  lemma OwnFrame(s: State, e: Event)
    requires Own(e) && !e.Retire? && ThreadStep(s, e).Some?
    ensures Framed(s, e.id, ThreadStep(s, e).value)
  {
    hide EarlyStep, LateStep, Framed;
    if Early(s.threads[e.id].pc) {
      EarlyFrame(s, e.id, e);
    } else {
      LateFrame(s, e.id, e);
    }
  }

  lemma RetireOnly(s: State, e: Event)
    requires Own(e) && e.Retire? && ThreadStep(s, e).Some?
    ensures e.id in s.threads && s.threads[e.id].kind.Prefetch?
    ensures var task, t := s.threads[e.id].kind.task, ThreadStep(s, e).value;
            && task in s.tasks && s.tasks[task].phase.Running?
            && t == Retired(s, task)
  {
    hide LateStep;
    NoEarlyRetire(s, e);
    RetireFrame(s, e.id, e);
  }

  lemma NoEarlyRetire(s: State, e: Event)
    requires Own(e) && e.Retire? && ThreadStep(s, e).Some?
    ensures e.id in s.threads && !Early(s.threads[e.id].pc)
  {
    hide LateStep;
  }
}
