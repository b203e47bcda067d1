/**
 The concurrent rollup-job protocol as a step system.

 Every event is one lock-held region of the job manager or one unlocked write
 of a worker or of a done-callback.  Events carry all that is nondeterministic
 (fresh ids and tokens, clock readings, what the scan does), so a run is just a
 sequence of events.
 */
module JobProtocol {
  import opened Wrappers

  type JobId = string
  type Token = string
  type Payload = string

  datatype Key = Key(prefix: string, depth: int)

  datatype Fault = Fault(message: string, code: int)

  const CANCELLED := Fault("rollup cancelled", 409)
  const RETENTION := 300.0

  datatype Status = Queued | Running | Done | Failed | Cancelled
  {
    predicate Live() { Queued? || Running? }
  }

  // The executor's future: not yet handed over, queued, executing, cancelled while
  // queued, or completed.
  datatype Future = Unsubmitted | Pending | Executing | Revoked | Resolved
  {
    predicate Settled() { Revoked? || Resolved? }
  }

  // Where the `run` closure of a job stands; each constructor names its next write.
  datatype Worker =
    | Waiting
    | Picked
    | Marked
    | Calling
    | Returned(value: Payload)
    | Saving(value: Payload)
    | Failing(fault: Fault, final: Status)
    | Finishing(final: Status)
    | Publishing(final: Status)
    | Signalling
    | Exiting
    | Gone

  // Where the done-callback of a job stands.
  datatype Callback =
    | Unarmed
    | Armed
    | Due
    | Recording
    | Stamping
    | Posting
    | Ringing
    | Releasing
    | Released

  datatype Job = Job(
    key: Key,
    status: Status,
    cancelRequested: bool,
    watchers: set<Token>,
    rows: int,
    result: Option<Payload>,
    error: Option<Fault>,
    finished: Option<real>,
    event: bool,
    future: Future,
    attached: bool,
    worker: Worker,
    callback: Callback)
  {
    predicate Joinable() { status.Live() && !cancelRequested }

    // No outcome has been stamped yet.
    predicate Open() { finished.None? }

    predicate Busy() { !worker.Waiting? && !worker.Gone? }
  }

  function NewJob(key: Key, token: Token): Job {
    Job(key, Queued, false, {token}, 0, None, None, None, false, Unsubmitted, false, Waiting, Unarmed)
  }

  datatype WorkerEvent =
    | Start
    | PreCheck
    | Progress(rows: int)
    | Return(value: Payload)
    | Raise(fault: Fault)
    | PostCheck
    | Save
    | RecordFault
    | Stamp(now: real)
    | Publish
    | Signal
    | Resolve

  datatype CallbackEvent =
    | Inspect
    | Record
    | StampEnd(end: real)
    | Post
    | Ring
    | Release

  datatype Event =
    | Submit(key: Key, id: JobId, token: Token, now: real)
    | Enqueue(accepted: bool)
    | Attach
    | Arm
    | Get(at: real)
    | Cancel(id: JobId, watcher: Option<Token>)
    | Revoke(id: JobId)
    | BeginClose
    | CloseNext(id: JobId)
    | Pick(id: JobId)
    | Work(id: JobId, work: WorkerEvent)
    | Callback(id: JobId, step: CallbackEvent)

  datatype State = State(
    jobs: map<JobId, Job>,          // every job whose submission was not rolled back
    table: set<JobId>,              // ids still in the manager's job table
    byKey: map<Key, JobId>,
    free: nat,                      // permits left in the slot semaphore
    capacity: nat,                  // max_workers + max_queue
    workers: nat,
    closed: bool,
    todo: set<JobId>,               // jobs the shutdown loop has still to cancel
    submitting: Option<JobId>,      // a submission holding the lock
    drawn: set<string>)             // ids and tokens handed out so far

  function Init(workers: nat, queue: nat): State {
    State(map[], {}, map[], workers + queue, workers + queue, workers, false, {}, None, {})
  }

  // ---- one job's own steps -------------------------------------------------

  function Notify(j: Job): Callback {
    if j.callback.Armed? then Due else j.callback
  }

  function Abort(j: Job): Job {
    j.(worker := Failing(CANCELLED, Cancelled))
  }

  function WorkerStep(j: Job, e: WorkerEvent): Option<Job> {
    match j.worker
    case Picked =>
      if e.Start? then Some(j.(status := Running, worker := Marked)) else None
    case Marked =>
      if !e.PreCheck? then None else Some(if j.cancelRequested then Abort(j) else j.(worker := Calling))
    case Calling =>
      (match e
       case Progress(n) => Some(if j.cancelRequested then Abort(j) else j.(rows := n))
       case Return(v) => Some(j.(worker := Returned(v)))
       case Raise(f) => Some(j.(worker := Failing(f, Failed)))
       case _ => None)
    case Returned(v) =>
      if !e.PostCheck? then None else Some(if j.cancelRequested then Abort(j) else j.(worker := Saving(v)))
    case Saving(v) =>
      if e.Save? then Some(j.(result := Some(v), worker := Finishing(Done))) else None
    case Failing(f, end) =>
      if e.RecordFault? then Some(j.(error := Some(f), worker := Finishing(end))) else None
    case Finishing(end) =>
      if e.Stamp? then Some(j.(finished := Some(e.now), worker := Publishing(end))) else None
    case Publishing(end) =>
      if e.Publish? then Some(j.(status := end, worker := Signalling)) else None
    case Signalling =>
      if e.Signal? then Some(j.(event := true, worker := Exiting)) else None
    case Exiting =>
      if e.Resolve? then Some(j.(future := Resolved, worker := Gone, callback := Notify(j))) else None
    case _ => None
  }

  function CallbackStep(j: Job, e: CallbackEvent): Option<Job> {
    match j.callback
    case Due =>
      if !e.Inspect? then None
      else Some(j.(callback := if j.attached && j.future.Revoked? && !j.event then Recording else Releasing))
    case Recording =>
      if e.Record? then Some(j.(error := Some(CANCELLED), callback := Stamping)) else None
    case Stamping =>
      if e.StampEnd? then Some(j.(finished := Some(e.end), callback := Posting)) else None
    case Posting =>
      if e.Post? then Some(j.(status := Cancelled, callback := Ringing)) else None
    case Ringing =>
      if e.Ring? then Some(j.(event := true, callback := Releasing)) else None
    case Releasing =>
      if e.Release? then Some(j.(callback := Released)) else None
    case _ => None
  }

  // future.cancel(): takes effect only while the future is queued.
  function RevokeFuture(j: Job): Job {
    if j.future.Pending? then j.(future := Revoked, callback := Notify(j)) else j
  }

  // ---- lock-held regions ---------------------------------------------------

  function Stale(s: State, now: real): set<JobId> {
    set id | id in s.table && id in s.jobs && s.jobs[id].finished.Some?
             && now - s.jobs[id].finished.value > RETENTION
  }

  function Prune(s: State, now: real): State {
    var stale := Stale(s, now);
    s.(table := s.table - stale, byKey := map k | k in s.byKey && s.byKey[k] !in stale :: s.byKey[k])
  }

  datatype Admission = Refused | Joined(id: JobId) | Full | Started(id: JobId)

  // What becomes of a submission once stale jobs are pruned.
  function Choose(p: State, key: Key, id: JobId): Admission {
    if key in p.byKey && p.byKey[key] in p.jobs && p.jobs[p.byKey[key]].Joinable() then
      Joined(p.byKey[key])
    else if p.free == 0 then Full
    else Started(id)
  }

  function Admit(s: State, key: Key, id: JobId, now: real): Admission {
    if s.closed then Refused else Choose(Prune(s, now), key, id)
  }

  function SubmitStep(s: State, key: Key, id: JobId, token: Token, now: real): Option<State> {
    if s.submitting.Some? || id in s.drawn || token in s.drawn || id == token then None else
    var p := Prune(s, now).(drawn := s.drawn + {id, token});
    match Admit(s, key, id, now)
    case Refused => Some(s)
    case Joined(shared) =>
      if shared !in p.jobs then None else
      var j := p.jobs[shared];
      Some(p.(jobs := p.jobs[shared := j.(watchers := j.watchers + {token})]))
    case Full => Some(p)
    case Started(_) =>
      Some(p.(jobs := p.jobs[id := NewJob(key, token)], table := p.table + {id},
           byKey := p.byKey[key := id], free := if p.free == 0 then 0 else p.free - 1,
           submitting := Some(id)))
  }

  function EnqueueStep(s: State, accepted: bool): Option<State> {
    if s.submitting.None? || s.submitting.value !in s.jobs then None else
    var id := s.submitting.value;
    var j := s.jobs[id];
    if !j.future.Unsubmitted? then None
    else if accepted then Some(s.(jobs := s.jobs[id := j.(future := Pending)]))
    else Some(s.(jobs := s.jobs - {id}, table := s.table - {id}, byKey := s.byKey - {j.key},
              free := s.free + 1, submitting := None))
  }

  function AttachStep(s: State): Option<State> {
    if s.submitting.None? || s.submitting.value !in s.jobs then None else
    var id := s.submitting.value;
    var j := s.jobs[id];
    if j.future.Unsubmitted? || j.attached then None
    else Some(s.(jobs := s.jobs[id := j.(attached := true)]))
  }

  function ArmStep(s: State): Option<State> {
    if s.submitting.None? || s.submitting.value !in s.jobs then None else
    var id := s.submitting.value;
    var j := s.jobs[id];
    if !j.attached then None
    else Some(s.(jobs := s.jobs[id := j.(callback := if j.future.Settled() then Due else Armed)],
              submitting := None))
  }

  // A cancel call reaches the job: it is still in the table and not yet terminal.
  predicate Reaches(s: State, id: JobId) {
    id in s.table && id in s.jobs && s.jobs[id].status.Live()
  }

  function Detach(j: Job, watcher: Option<Token>): Job {
    match watcher
    case None => j.(cancelRequested := true)
    case Some(w) =>
      var left := j.watchers - {w};
      if left != {} then j.(watchers := left) else j.(watchers := left, cancelRequested := true)
  }

  // No watcher is left after this detachment.
  predicate Emptied(j: Job, watcher: Option<Token>) {
    watcher.None? || j.watchers - {watcher.value} == {}
  }

  function CancelJob(s: State, id: JobId, watcher: Option<Token>): State {
    if Reaches(s, id) then s.(jobs := s.jobs[id := Detach(s.jobs[id], watcher)]) else s
  }

  function Active(s: State): set<JobId> {
    set id | id in s.table && Reaches(s, id)
  }

  function BusyIds(jobs: map<JobId, Job>): set<JobId> {
    set id | id in jobs && jobs[id].Busy()
  }

  // ---- the step function: None when the event cannot happen in this state ---

  function Step(s: State, e: Event): Option<State> {
    match e
    case Submit(key, id, token, now) => SubmitStep(s, key, id, token, now)
    case Enqueue(accepted) => EnqueueStep(s, accepted)
    case Attach => AttachStep(s)
    case Arm => ArmStep(s)
    case Get(now) => if s.submitting.Some? then None else Some(Prune(s, now))
    case Cancel(id, watcher) =>
      if s.submitting.Some? then None else Some(CancelJob(s, id, watcher))
    case Revoke(id) =>
      if id !in s.jobs || !s.jobs[id].cancelRequested || !s.jobs[id].attached then None
      else Some(s.(jobs := s.jobs[id := RevokeFuture(s.jobs[id])]))
    case BeginClose =>
      if s.submitting.Some? then None else Some(s.(closed := true, todo := s.todo + Active(s)))
    case CloseNext(id) =>
      if s.submitting.Some? || id !in s.todo then None
      else Some(CancelJob(s, id, None).(todo := s.todo - {id}))
    case Pick(id) =>
      if id !in s.jobs || !s.jobs[id].future.Pending? || |BusyIds(s.jobs)| >= s.workers then None
      else Some(s.(jobs := s.jobs[id := s.jobs[id].(future := Executing, worker := Picked)]))
    case Work(id, w) =>
      if id !in s.jobs then None else
      (match WorkerStep(s.jobs[id], w)
       case None => None
       case Some(j) => Some(s.(jobs := s.jobs[id := j])))
    case Callback(id, c) =>
      if id !in s.jobs then None else
      (match CallbackStep(s.jobs[id], c)
       case None => None
       case Some(j) => Some(s.(jobs := s.jobs[id := j],
                            free := if c.Release? then s.free + 1 else s.free)))
  }

  // A run: the state after a sequence of events, when each could happen in turn.
  function Run(init: State, events: seq<Event>): Option<State> {
    if events == [] then Some(init) else
    match Run(init, events[..|events| - 1])
    case None => None
    case Some(s) => Step(s, events[|events| - 1])
  }
}
