/**
 The concurrent life of listings as a step system: interactive requests, prefetches and
 warm refreshes share a cache, a single-flight registry, a prefetch registry and a gate
 of query permits.  Each event is one lock-held region, one wait that ended, or one
 backend call.  Entries may vanish from the cache at any time, and the epoch a request
 reads is arbitrary.
 */
module ListingProtocol {
  import opened Wrappers
  import opened RollupSpec
  import opened ListingSpec
  import opened Listings

  // A flight is named by the thread that leads it: a thread serves one request.
  type ThreadId = nat
  type TaskId = nat

  datatype Outcome = Value(listing: Listing) | Error

  datatype Kind = Interactive | Prefetch(task: TaskId) | Warm

  // Where a request stands; each constructor names its next action.
  datatype Pc =
    | Start
    | FindPrefetch
    | TryCancel(task: TaskId)
    | DropPrefetch
    | AwaitPrefetch(task: TaskId)
    | LookUp
    | JoinFlight
    | Follow(flight: ThreadId)
    | Decide
    | AwaitGate
    | Query
    | Store(listing: Listing)
    | Clear(outcome: Outcome)
    | Announce(outcome: Outcome)
    | Done(outcome: Outcome)

  // `flight` is the flight the request led or followed, if any.
  datatype Thread = Thread(kind: Kind, key: Key, pc: Pc, flight: Option<ThreadId>)

  datatype Flight = Flight(key: Key, outcome: Option<Outcome>)

  datatype Phase = Queued | Running(thread: ThreadId) | Finished | Cancelled

  datatype Task = Task(path: string, phase: Phase)

  // Threads of the pool that prefetches run on.
  const PREFETCH_THREADS := 2

  datatype State = State(
    catalog: Catalog,
    cap: nat,
    cache: map<Key, Listing>,
    inflight: map<Key, ThreadId>,
    flights: map<ThreadId, Flight>,
    registry: map<string, TaskId>,
    tasks: map<TaskId, Task>,
    threads: map<ThreadId, Thread>,
    free: nat,                         // gate permits left
    others: nat,                       // gate permits held by rollups
    capacity: nat)

  datatype Event =
    | Spawn(id: ThreadId, kind: Kind, path: string, filter: TypeFilter, name: string)
    | Submit(task: TaskId, path: string)
    | PickUp(task: TaskId, id: ThreadId)
    | Retire(id: ThreadId)
    | Forget(task: TaskId)
    | Evict(key: Key)
    | Take
    | Give
    | Timeout(id: ThreadId)
    | Enter(id: ThreadId, epoch: Epoch)
    | Find(id: ThreadId)
    | CancelTask(id: ThreadId)
    | Drop(id: ThreadId)
    | Wake(id: ThreadId)
    | Look(id: ThreadId, live: bool)
    | Join(id: ThreadId)
    | Obtain(id: ThreadId)
    | Choose(id: ThreadId)
    | Acquire(id: ThreadId)
    | Answer(id: ThreadId, outcome: Outcome)
    | Put(id: ThreadId, kept: bool)
    | ClearFlight(id: ThreadId)
    | Resolve(id: ThreadId)

  function Init(catalog: Catalog, cap: nat, permits: nat): State {
    State(catalog, cap, map[], map[], map[], map[], map[], map[], permits, 0, permits)
  }

  function Moved(s: State, id: ThreadId, pc: Pc): State
    requires id in s.threads
  {
    s.(threads := s.threads[id := s.threads[id].(pc := pc)])
  }

  function NewThread(kind: Kind, path: string, filter: TypeFilter, name: string): Thread {
    Thread(kind, Key(None, path, filter, name), Start, None)
  }

  // What a query may answer: an error, or what a direct capped query of the snapshot says.
  ghost predicate Honest(catalog: Catalog, cap: nat, key: Key, o: Outcome) {
    o.Value? ==> Names(catalog, cap, key, o.listing)
  }

  // compute(): a filtered listing is derived from a complete unfiltered one when cached.
  function Derivable(s: State, key: Key): bool {
    key.Filtered() && key.Whole() in s.cache && !s.cache[key.Whole()].truncated
  }

  function Derived(s: State, key: Key): Listing
    requires Derivable(s, key)
  {
    Listing(Select(s.cache[key.Whole()].table, key.filter, key.name), false)
  }

  ghost function RunningTasks(tasks: map<TaskId, Task>): set<TaskId> {
    set task <- tasks | tasks[task].phase.Running?
  }

  // Not yet past the single-flight registry.
  predicate Early(pc: Pc) {
    pc.Start? || pc.FindPrefetch? || pc.TryCancel? || pc.DropPrefetch? || pc.AwaitPrefetch? || pc.LookUp?
    || pc.JoinFlight?
  }

  // Steps that a request takes itself.
  predicate Own(e: Event) {
    !e.Spawn? && !e.Submit? && !e.PickUp? && !e.Forget? && !e.Evict? && !e.Take? && !e.Give?
  }

  // ---- where a request's step leads ---------------------------------------------------------

  function Entered(s: State, id: ThreadId, epoch: Epoch): State
    requires id in s.threads
  {
    var t := s.threads[id];
    s.(threads := s.threads[id := t.(key := t.key.(epoch := epoch),
                                     pc := if t.kind.Interactive? then FindPrefetch else LookUp)])
  }

  function CancelledTask(s: State, id: ThreadId, task: TaskId): State
    requires id in s.threads && task in s.tasks
  {
    Moved(s, id, DropPrefetch).(tasks := s.tasks[task := s.tasks[task].(phase := Cancelled)])
  }

  function Dropped(s: State, id: ThreadId): State
    requires id in s.threads
  {
    Moved(s, id, LookUp).(registry := s.registry - {s.threads[id].key.path})
  }

  function Followed(s: State, id: ThreadId): State
    requires id in s.threads && s.threads[id].key in s.inflight
  {
    var f := s.inflight[s.threads[id].key];
    s.(threads := s.threads[id := s.threads[id].(pc := Follow(f), flight := Some(f))])
  }

  function Led(s: State, id: ThreadId): State
    requires id in s.threads
  {
    var k := s.threads[id].(pc := Decide, flight := Some(id));
    s.(threads := s.threads[id := k], inflight := s.inflight[k.key := id],
       flights := s.flights[id := Flight(k.key, None)])
  }

  function Acquired(s: State, id: ThreadId): State
    requires id in s.threads && s.free > 0
  {
    Moved(s, id, Query).(free := s.free - 1)
  }

  // Where a query's answer takes a request; its permit is back.
  function Answered(s: State, id: ThreadId, o: Outcome): State
    requires id in s.threads
  {
    var pc := if o.Value? then Store(o.listing) else if s.threads[id].kind.Warm? then Done(o) else Clear(o);
    Moved(s, id, pc).(free := s.free + 1)
  }

  function Stored(s: State, id: ThreadId, l: Listing, kept: bool): State
    requires id in s.threads
  {
    var key := s.threads[id].key;
    Moved(s, id, if s.threads[id].kind.Warm? then Done(Value(l)) else Clear(Value(l)))
    .(cache := if kept then s.cache[key := l] else s.cache - {key})
  }

  function Cleared(s: State, id: ThreadId, o: Outcome): State
    requires id in s.threads
  {
    Moved(s, id, Announce(o)).(inflight := s.inflight - {s.threads[id].key})
  }

  function Resolved(s: State, id: ThreadId, o: Outcome): State
    requires id in s.threads
  {
    Moved(s, id, Done(o)).(flights := s.flights[id := Flight(s.threads[id].key, Some(o))])
  }

  function Retired(s: State, task: TaskId): State
    requires task in s.tasks
  {
    s.(tasks := s.tasks[task := s.tasks[task].(phase := Finished)])
  }

  function PickedUp(s: State, task: TaskId, id: ThreadId): State
    requires task in s.tasks
  {
    s.(tasks := s.tasks[task := s.tasks[task].(phase := Running(id))],
       threads := s.threads[id := NewThread(Prefetch(task), s.tasks[task].path, AnyType, "")])
  }

  // A step up to the single-flight registry, given what the event brings ...
  function EarlyStep(s: State, id: ThreadId, t: Thread, e: Event): Option<State>
    requires id in s.threads && t == s.threads[id]
  {
    match t.pc
    case Start => if e.Enter? then Some(Entered(s, id, e.epoch)) else None
    case FindPrefetch =>
      if !e.Find? then None else
      Some(Moved(s, id, if t.key.path in s.registry then TryCancel(s.registry[t.key.path]) else LookUp))
    case TryCancel(task) =>
      if !e.CancelTask? || task !in s.tasks then None
      else if s.tasks[task].phase.Queued? || s.tasks[task].phase.Cancelled? then Some(CancelledTask(s, id, task))
      else Some(Moved(s, id, AwaitPrefetch(task)))
    case DropPrefetch => if e.Drop? then Some(Dropped(s, id)) else None
    case AwaitPrefetch(task) =>
      if e.Timeout? || (e.Wake? && task in s.tasks && s.tasks[task].phase.Finished?) then Some(Moved(s, id, LookUp))
      else None
    case LookUp =>
      if !e.Look? then None
      else if t.key in s.cache && (e.live || !t.kind.Warm?) then Some(Moved(s, id, Done(Value(s.cache[t.key]))))
      else Some(Moved(s, id, if t.kind.Warm? then AwaitGate else JoinFlight))
    case JoinFlight =>
      if !e.Join? then None else Some(if t.key in s.inflight then Followed(s, id) else Led(s, id))
    case _ => None
  }

  // ... and one beyond it.
  ghost function LateStep(s: State, id: ThreadId, t: Thread, e: Event): Option<State>
    requires id in s.threads && t == s.threads[id]
  {
    match t.pc
    case Follow(f) =>
      if !e.Obtain? || f !in s.flights || s.flights[f].outcome.None? then None
      else Some(Moved(s, id, Done(s.flights[f].outcome.value)))
    case Decide =>
      if !e.Choose? then None
      else Some(Moved(s, id, if Derivable(s, t.key) then Store(Derived(s, t.key)) else AwaitGate))
    case AwaitGate => if e.Acquire? && s.free > 0 then Some(Acquired(s, id)) else None
    case Query =>
      if e.Answer? && Honest(s.catalog, s.cap, t.key, e.outcome) then Some(Answered(s, id, e.outcome)) else None
    case Store(l) => if e.Put? then Some(Stored(s, id, l, e.kept)) else None
    case Clear(o) => if e.ClearFlight? then Some(Cleared(s, id, o)) else None
    case Announce(o) => if e.Resolve? then Some(Resolved(s, id, o)) else None
    case Done(_) =>
      if e.Retire? && t.kind.Prefetch? && t.kind.task in s.tasks && s.tasks[t.kind.task].phase == Running(id)
      then Some(Retired(s, t.kind.task)) else None
    case _ => None
  }

  ghost function ThreadStep(s: State, e: Event): Option<State>
    requires Own(e)
  {
    if e.id !in s.threads then None
    else if Early(s.threads[e.id].pc) then EarlyStep(s, e.id, s.threads[e.id], e)
    else LateStep(s, e.id, s.threads[e.id], e)
  }

  ghost function Step(s: State, e: Event): Option<State> {
    match e
    case Spawn(id, kind, path, filter, name) =>
      if id in s.threads || kind.Prefetch? || (kind.Warm? && (filter != AnyType || name != "")) then None
      else Some(s.(threads := s.threads[id := NewThread(kind, path, filter, name)]))
    case Submit(task, path) =>
      if task in s.tasks || path in s.registry then None
      else Some(s.(tasks := s.tasks[task := Task(path, Queued)], registry := s.registry[path := task]))
    case PickUp(task, id) =>
      if task !in s.tasks || !s.tasks[task].phase.Queued? || id in s.threads
         || |RunningTasks(s.tasks)| >= PREFETCH_THREADS then None
      else Some(PickedUp(s, task, id))
    case Forget(task) =>
      if task !in s.tasks || s.tasks[task].phase.Queued? || s.tasks[task].phase.Running? then None
      else var path := s.tasks[task].path;
           Some(if path in s.registry && s.registry[path] == task then s.(registry := s.registry - {path}) else s)
    case Evict(key) => Some(s.(cache := s.cache - {key}))
    case Take => if s.free == 0 then None else Some(s.(free := s.free - 1, others := s.others + 1))
    case Give => if s.others == 0 then None else Some(s.(free := s.free + 1, others := s.others - 1))
    case _ => ThreadStep(s, e)
  }

  ghost function Run(init: State, events: seq<Event>): Option<State> {
    if events == [] then Some(init) else
    match Run(init, events[..|events| - 1])
    case None => None
    case Some(s) => Step(s, events[|events| - 1])
  }

  // ---- the invariant -------------------------------------------------------------------------

  ghost predicate CacheOk(catalog: Catalog, cap: nat, cache: map<Key, Listing>) {
    forall k <- cache :: Names(catalog, cap, k, cache[k])
  }

  // Computing under a flight of its own, registered for others to follow.
  predicate Leads(t: Thread) {
    !t.kind.Warm? && (t.pc.Decide? || t.pc.AwaitGate? || t.pc.Query? || t.pc.Store? || t.pc.Clear?)
  }

  ghost predicate HoldsGood(catalog: Catalog, cap: nat, t: Thread) {
    && (t.pc.Store? ==> Names(catalog, cap, t.key, t.pc.listing))
    && (t.pc.Clear? || t.pc.Announce? || t.pc.Done? ==> Honest(catalog, cap, t.key, t.pc.outcome))
  }

  ghost predicate FlightMatches(flights: map<ThreadId, Flight>, inflight: map<Key, ThreadId>, id: ThreadId, t: Thread) {
    && (Early(t.pc) ==> t.flight.None?)
    && (Leads(t) ==> t.flight == Some(id) && t.key in inflight && inflight[t.key] == id)
    && (t.pc.Announce? ==> t.flight == Some(id))
    && (t.pc.Follow? ==> t.flight == Some(t.pc.flight))
    && (t.flight.Some? ==> t.flight.value in flights && flights[t.flight.value].key == t.key)
    && (t.pc.Done? && t.flight.Some? ==> flights[t.flight.value].outcome == Some(t.pc.outcome))
  }

  // Each kind of request takes its own branches.
  ghost predicate KindOk(t: Thread) {
    && (t.kind.Warm? ==>
          t.flight.None? && t.key == t.key.Whole()
          && !t.pc.JoinFlight? && !t.pc.Follow? && !t.pc.Decide? && !t.pc.Clear? && !t.pc.Announce?)
    && (!t.kind.Interactive? ==>
          !t.pc.FindPrefetch? && !t.pc.TryCancel? && !t.pc.DropPrefetch? && !t.pc.AwaitPrefetch?)
  }

  ghost predicate TaskMatches(tasks: map<TaskId, Task>, id: ThreadId, t: Thread) {
    && (t.pc.TryCancel? ==> t.pc.task in tasks)
    && (t.pc.AwaitPrefetch? ==> t.pc.task in tasks && !tasks[t.pc.task].phase.Queued?
                                && !tasks[t.pc.task].phase.Cancelled?)
    && (t.kind.Prefetch? ==> t.kind.task in tasks)
    && (t.kind.Prefetch? && !t.pc.Done? ==> tasks[t.kind.task].phase == Running(id))
  }

  ghost predicate ThreadOk(s: State, id: ThreadId)
    requires id in s.threads
  {
    var t := s.threads[id];
    && HoldsGood(s.catalog, s.cap, t) && FlightMatches(s.flights, s.inflight, id, t)
    && KindOk(t) && TaskMatches(s.tasks, id, t)
  }

  // An unresolved flight has a live leader; a resolved one carries an honest outcome.
  ghost predicate FlightOk(s: State, f: ThreadId)
    requires f in s.flights
  {
    && f in s.threads && s.threads[f].flight == Some(f) && s.threads[f].key == s.flights[f].key
    && (s.flights[f].outcome.None? <==> Leads(s.threads[f]) || s.threads[f].pc.Announce?)
    && (s.flights[f].outcome.Some? ==> s.threads[f].pc == Done(s.flights[f].outcome.value))
  }

  ghost predicate InflightOk(s: State, k: Key)
    requires k in s.inflight
  {
    var f := s.inflight[k];
    f in s.flights && f in s.threads && s.flights[f].key == k && Leads(s.threads[f])
  }

  ghost predicate TaskOk(s: State, task: TaskId)
    requires task in s.tasks
  {
    s.tasks[task].phase.Running? ==>
      s.tasks[task].phase.thread in s.threads && s.threads[s.tasks[task].phase.thread].kind == Prefetch(task)
  }

  ghost function Holders(threads: map<ThreadId, Thread>): set<ThreadId> {
    set id <- threads | threads[id].pc.Query?
  }

  ghost predicate GateOk(s: State) {
    s.free + s.others + |Holders(s.threads)| == s.capacity
  }

  ghost predicate Inv(s: State) {
    && CacheOk(s.catalog, s.cap, s.cache)
    && (forall id <- s.threads :: ThreadOk(s, id))
    && (forall f <- s.flights :: FlightOk(s, f))
    && (forall k <- s.inflight :: InflightOk(s, k))
    && (forall task <- s.tasks :: TaskOk(s, task))
    && (forall path <- s.registry :: s.registry[path] in s.tasks)
    && GateOk(s)
  }
}
