/**
 The inductive invariant of the job protocol and its preservation by every step,
 under every interleaving of clients, workers and done-callbacks.
 */
module JobInvariant {
  import opened Wrappers
  import opened Sets
  import opened JobProtocol

  // ---- per job: which fields hold which values at each control point --------

  predicate RunStamped(j: Job) {
    j.worker.Publishing? || RunPublished(j)
  }

  predicate RunPublished(j: Job) {
    j.worker.Signalling? || j.worker.Exiting? || j.worker.Gone?
  }

  predicate CallbackPosted(j: Job) {
    j.future.Revoked? && (j.callback.Ringing? || j.callback.Releasing? || j.callback.Released?)
  }

  predicate CallbackStamped(j: Job) {
    (j.future.Revoked? && j.callback.Posting?) || CallbackPosted(j)
  }

  predicate ControlInv(j: Job) {
    && (j.worker.Waiting? <==> j.future.Unsubmitted? || j.future.Pending? || j.future.Revoked?)
    && (j.worker.Gone? <==> j.future.Resolved?)
    && (j.future.Unsubmitted? ==> !j.attached)
    && (!j.callback.Unarmed? ==> j.attached)
    && (j.callback.Armed? ==> !j.future.Settled())
    && (!j.callback.Unarmed? && !j.callback.Armed? ==> j.future.Settled())
    && (j.callback.Recording? || j.callback.Stamping? || j.callback.Posting? || j.callback.Ringing?
        ==> j.future.Revoked?)
  }

  predicate OutcomeInv(j: Job) {
    && (j.finished.Some? <==> RunStamped(j) || CallbackStamped(j))
    && (!j.status.Live() <==> RunPublished(j) || CallbackPosted(j))
    && (j.worker.Waiting? && j.status.Live() ==> j.status.Queued?)
    && (j.event <==> j.worker.Exiting? || j.worker.Gone?
                     || (j.future.Revoked? && (j.callback.Releasing? || j.callback.Released?)))
    && (j.status.Done? ==> j.result.Some? && j.error.None?)
    && (j.status.Failed? || j.status.Cancelled? ==> j.result.None? && j.error.Some?)
    && (j.status.Cancelled? ==> j.cancelRequested && j.error == Some(CANCELLED))
  }

  // What the run closure has in hand before it publishes.
  predicate PayloadInv(j: Job) {
    match j.worker
    case Failing(f, end) =>
      && j.result.None? && j.error.None? && (end.Failed? || end.Cancelled?)
      && (end.Cancelled? ==> f == CANCELLED && j.cancelRequested)
    case Finishing(end) => Recorded(j, end)
    case Publishing(end) => Recorded(j, end)
    case Signalling => true
    case Exiting => true
    case Gone => true
    case Waiting =>
      && j.result.None?
      && (j.error.Some? <==> CallbackStamped(j) || (j.future.Revoked? && j.callback.Stamping?))
      && (j.error.Some? ==> j.error == Some(CANCELLED))
    case _ => j.result.None? && j.error.None?
  }

  predicate Recorded(j: Job, end: Status) {
    && !end.Live()
    && (end.Done? ==> j.result.Some? && j.error.None?)
    && (!end.Done? ==> j.result.None? && j.error.Some?)
    && (end.Cancelled? ==> j.cancelRequested && j.error == Some(CANCELLED))
  }

  predicate JobInv(j: Job) {
    && ControlInv(j)
    && OutcomeInv(j)
    && PayloadInv(j)
    && (j.future.Revoked? ==> j.cancelRequested)
    && (!j.cancelRequested ==> j.watchers != {})
  }

  // Workers and callbacks leave the client side of a job alone and never reopen it.
  predicate SameClients(j: Job, k: Job) {
    && k.key == j.key && k.watchers == j.watchers && k.cancelRequested == j.cancelRequested
    && k.attached == j.attached && k.callback.Unarmed? == j.callback.Unarmed?
    && (k.Open() ==> j.Open())
  }

  // What every step of a job's run closure or callback keeps.
  predicate StepKept(j: Job, k: Job, busy: bool, released: bool) {
    && JobInv(k) && SameClients(j, k)
    && k.Busy() == busy
    && !j.callback.Released? && k.callback.Released? == released
  }

  lemma ScanStepKeepsJob(j: Job, e: WorkerEvent)
    requires JobInv(j) && WorkerStep(j, e).Some?
    requires j.worker.Picked? || j.worker.Marked? || j.worker.Calling? || j.worker.Returned?
    ensures StepKept(j, WorkerStep(j, e).value, true, false) && !e.Resolve?
  {
  }

  lemma FileStepKeepsJob(j: Job, e: WorkerEvent)
    requires JobInv(j) && WorkerStep(j, e).Some?
    requires j.worker.Saving? || j.worker.Failing? || j.worker.Finishing?
    ensures StepKept(j, WorkerStep(j, e).value, true, false) && !e.Resolve?
  {
  }

  lemma EndStepKeepsJob(j: Job, e: WorkerEvent)
    requires JobInv(j) && WorkerStep(j, e).Some?
    requires j.worker.Publishing? || j.worker.Signalling? || j.worker.Exiting?
    ensures StepKept(j, WorkerStep(j, e).value, !e.Resolve?, false)
  {
  }

  lemma WorkerStepKeepsJob(j: Job, e: WorkerEvent)
    requires JobInv(j) && WorkerStep(j, e).Some?
    ensures j.Busy() && StepKept(j, WorkerStep(j, e).value, !e.Resolve?, false)
  {
    hide JobInv, StepKept;
    match j.worker
    case Saving(_) => FileStepKeepsJob(j, e);
    case Failing(_, _) => FileStepKeepsJob(j, e);
    case Finishing(_) => FileStepKeepsJob(j, e);
    case Publishing(_) => EndStepKeepsJob(j, e);
    case Signalling => EndStepKeepsJob(j, e);
    case Exiting => EndStepKeepsJob(j, e);
    case _ => ScanStepKeepsJob(j, e);
  }

  lemma CallbackStepKeepsJob(j: Job, e: CallbackEvent)
    requires JobInv(j) && CallbackStep(j, e).Some?
    ensures StepKept(j, CallbackStep(j, e).value, j.Busy(), e.Release?)
  {
  }

  // Clients only add watchers, or take the last one away while setting the flag.
  lemma ClientsKeepJob(j: Job, watchers: set<Token>, flag: bool)
    requires JobInv(j) && (j.cancelRequested ==> flag) && (!flag ==> watchers != {})
    ensures JobInv(j.(watchers := watchers, cancelRequested := flag))
  {
    var k := j.(watchers := watchers, cancelRequested := flag);
    assert CallbackPosted(k) == CallbackPosted(j) && CallbackStamped(k) == CallbackStamped(j);
    assert RunPublished(k) == RunPublished(j) && RunStamped(k) == RunStamped(j);
    assert ControlInv(k) && OutcomeInv(k) && PayloadInv(k) by {
      hide CallbackPosted, CallbackStamped, RunPublished, RunStamped;
    }
  }

  lemma RevokeKeepsJob(j: Job)
    requires JobInv(j) && j.cancelRequested && j.attached
    ensures JobInv(RevokeFuture(j))
  {
  }

  lemma PickKeepsJob(j: Job)
    requires JobInv(j) && j.future.Pending?
    ensures JobInv(j.(future := Executing, worker := Picked))
    ensures !j.callback.Released?
  {
  }

  // ---- the whole manager ---------------------------------------------------

  function Held(jobs: map<JobId, Job>): set<JobId> {
    set id | id in jobs && !jobs[id].callback.Released?
  }

  predicate TableInv(s: State) {
    && s.table <= s.jobs.Keys
    && s.jobs.Keys <= s.drawn
    && (forall k <- s.byKey :: s.byKey[k] in s.table && s.jobs[s.byKey[k]].key == k)
    && (forall id <- s.jobs :: s.jobs[id].Open() ==> id in s.table)
    && (forall id <- s.jobs :: s.jobs[id].watchers <= s.drawn)
  }

  // An unfinished job nobody asked to cancel is the one its key leads to.
  predicate LiveInv(s: State) {
    forall id <- s.jobs :: s.jobs[id].Open() && !s.jobs[id].cancelRequested ==>
      s.jobs[id].key in s.byKey && s.byKey[s.jobs[id].key] == id
  }

  predicate LockInv(s: State) {
    && (forall id <- s.jobs :: s.submitting == Some(id) || (s.jobs[id].attached && !s.jobs[id].callback.Unarmed?))
    && (s.submitting.Some? ==>
          var id := s.submitting.value;
          && id in s.table && id in s.jobs && !s.closed
          && s.jobs[id].callback.Unarmed? && !s.jobs[id].cancelRequested
          && s.jobs[id].key in s.byKey && s.byKey[s.jobs[id].key] == id)
  }

  predicate SlotInv(s: State) {
    && s.free + |Held(s.jobs)| == s.capacity
    && |BusyIds(s.jobs)| <= s.workers
  }

  predicate CloseInv(s: State) {
    s.closed ==> forall id <- s.jobs ::
      !s.jobs[id].Open() || s.jobs[id].cancelRequested || id in s.todo
  }

  predicate Inv(s: State) {
    && AllJobs(s.jobs)
    && TableInv(s)
    && LiveInv(s)
    && LockInv(s)
    && SlotInv(s)
    && CloseInv(s)
  }

  lemma InitInv(workers: nat, queue: nat)
    ensures Inv(Init(workers, queue))
  {
    assert Held(Init(workers, queue).jobs) == {};
    assert BusyIds(Init(workers, queue).jobs) == {};
  }

  // ---- counting ------------------------------------------------------------

  lemma Recount(jobs: map<JobId, Job>, id: JobId, j: Job)
    ensures Held(jobs[id := j]) == if j.callback.Released? then Held(jobs) - {id} else Held(jobs) + {id}
    ensures BusyIds(jobs[id := j]) == if j.Busy() then BusyIds(jobs) + {id} else BusyIds(jobs) - {id}
  {
  }

  // Replacing one job by one that holds its slot and its worker alike.
  lemma SameCount(jobs: map<JobId, Job>, id: JobId, j: Job)
    requires id in jobs
    requires j.callback.Released? == jobs[id].callback.Released?
    requires j.Busy() == jobs[id].Busy()
    ensures Held(jobs[id := j]) == Held(jobs)
    ensures BusyIds(jobs[id := j]) == BusyIds(jobs)
  {
    Recount(jobs, id, j);
  }

  // ---- preservation, one lemma per kind of step -----------------------------

  predicate AllJobs(jobs: map<JobId, Job>) {
    forall id <- jobs :: JobInv(jobs[id])
  }

  // What a step on one job may do to the facts the manager relies on.
  predicate Evolves(s: State, id: JobId, j: Job)
    requires id in s.jobs
  {
    var i := s.jobs[id];
    && j.key == i.key
    && j.watchers <= s.drawn
    && (j.Open() ==> i.Open())
    && (i.cancelRequested ==> j.cancelRequested)
    && (if s.submitting == Some(id) then j.callback.Unarmed? && !j.cancelRequested
        else j.attached && !j.callback.Unarmed?)
  }

  lemma ReplaceKeepsTable(s: State, id: JobId, j: Job, free: nat)
    requires TableInv(s) && LiveInv(s) && LockInv(s) && CloseInv(s)
    requires id in s.jobs && Evolves(s, id, j)
    ensures var t := s.(jobs := s.jobs[id := j], free := free);
            TableInv(t) && LiveInv(t) && LockInv(t) && CloseInv(t)
  {
  }

  lemma ReplaceKeeps(s: State, id: JobId, j: Job, free: nat)
    requires Inv(s) && id in s.jobs && JobInv(j) && Evolves(s, id, j)
    requires free + |Held(s.jobs[id := j])| == s.capacity
    requires |BusyIds(s.jobs[id := j])| <= s.workers
    ensures Inv(s.(jobs := s.jobs[id := j], free := free))
  {
    hide JobInv, TableInv, LiveInv, LockInv, CloseInv, Evolves, Held, BusyIds;
    ReplaceKeepsTable(s, id, j, free);
  }

  lemma PruneKeepsTable(s: State, now: real)
    requires TableInv(s) && LiveInv(s) && LockInv(s) && CloseInv(s) && s.submitting.None?
    ensures var t := Prune(s, now); TableInv(t) && LiveInv(t) && LockInv(t) && CloseInv(t)
  {
  }

  lemma PruneKeeps(s: State, now: real)
    requires Inv(s) && s.submitting.None?
    ensures Inv(Prune(s, now))
  {
    PruneKeepsTable(s, now);
    assert AllJobs(s.jobs);
  }

  lemma JoinKeeps(p: State, id: JobId, token: Token)
    requires Inv(p) && p.submitting.None? && id in p.jobs && p.jobs[id].Joinable()
    ensures Inv(p.(drawn := p.drawn + {token},
                   jobs := p.jobs[id := p.jobs[id].(watchers := p.jobs[id].watchers + {token})]))
  {
    hide JobInv, Held, BusyIds;
    DrawKeeps(p, {token});
    var q := p.(drawn := p.drawn + {token});
    var j := p.jobs[id].(watchers := p.jobs[id].watchers + {token});
    ClientsKeepJob(p.jobs[id], j.watchers, false);
    SameCount(p.jobs, id, j);
    ReplaceKeeps(q, id, j, q.free);
  }

  function Admitted(p: State, key: Key, id: JobId, token: Token): State
    requires p.free > 0
  {
    p.(jobs := p.jobs[id := NewJob(key, token)], table := p.table + {id},
       byKey := p.byKey[key := id], free := p.free - 1, submitting := Some(id))
  }

  lemma AdmitKeepsTable(p: State, key: Key, id: JobId, token: Token)
    requires TableInv(p) && LiveInv(p) && LockInv(p) && CloseInv(p)
    requires p.free > 0 && p.submitting.None? && !p.closed && id !in p.jobs && {id, token} <= p.drawn
    requires key in p.byKey ==> var earlier := p.jobs[p.byKey[key]]; !earlier.Open() || earlier.cancelRequested
    ensures var t := Admitted(p, key, id, token); TableInv(t) && LiveInv(t) && LockInv(t) && CloseInv(t)
  {
    var t := Admitted(p, key, id, token);
    assert TableInv(t) by { hide LiveInv, LockInv, CloseInv; }
    assert LiveInv(t) by { hide TableInv, LockInv, CloseInv; }
    assert LockInv(t) by { hide TableInv, LiveInv, CloseInv; }
    assert CloseInv(t) by { hide TableInv, LiveInv, LockInv; }
  }

  lemma AdmitCounts(p: State, key: Key, id: JobId, token: Token)
    requires p.free > 0 && id !in p.jobs
    ensures var t := Admitted(p, key, id, token);
            |Held(t.jobs)| == |Held(p.jobs)| + 1 && BusyIds(t.jobs) == BusyIds(p.jobs)
  {
    Recount(p.jobs, id, NewJob(key, token));
    assert id !in Held(p.jobs) && id !in BusyIds(p.jobs);
  }

  lemma AdmitKeepsJobs(p: State, key: Key, id: JobId, token: Token)
    requires p.free > 0 && AllJobs(p.jobs)
    ensures AllJobs(Admitted(p, key, id, token).jobs)
  {
  }

  lemma AdmitKeeps(p: State, key: Key, id: JobId, token: Token)
    requires Inv(p) && p.free > 0 && p.submitting.None? && !p.closed && id !in p.jobs && {id, token} <= p.drawn
    requires key in p.byKey ==> !p.jobs[p.byKey[key]].Joinable()
    ensures Inv(Admitted(p, key, id, token))
  {
    if key in p.byKey {
      StatusOpen(p.jobs, p.byKey[key]);
    }
    AdmitKeepsTable(p, key, id, token);
    AdmitCounts(p, key, id, token);
    AdmitKeepsJobs(p, key, id, token);
  }

  lemma StatusOpen(jobs: map<JobId, Job>, id: JobId)
    requires AllJobs(jobs) && id in jobs
    ensures !jobs[id].status.Live() ==> !jobs[id].Open()
  {
    assert JobInv(jobs[id]);
  }

  lemma DrawKeeps(s: State, ids: set<string>)
    requires Inv(s)
    ensures Inv(s.(drawn := s.drawn + ids))
  {
    assert AllJobs(s.jobs);
  }

  lemma NewIdFits(s: State, key: Key, id: JobId, now: real)
    requires Inv(s) && id !in s.drawn && Choose(Prune(s, now), key, id).Started?
    ensures id !in s.jobs
    ensures var p := Prune(s, now); key in p.byKey ==> p.byKey[key] in p.jobs && !p.jobs[p.byKey[key]].Joinable()
  {
  }

  lemma SubmitKeeps(s: State, key: Key, id: JobId, token: Token, now: real)
    requires Inv(s) && SubmitStep(s, key, id, token, now).Some?
    ensures Inv(SubmitStep(s, key, id, token, now).value)
  {
    hide Inv;
    if !s.closed {
      PruneKeeps(s, now);
      DrawKeeps(Prune(s, now), {id, token});
      var p := Prune(s, now).(drawn := s.drawn + {id, token});
      match Admit(s, key, id, now)
      case Full =>
      case Joined(shared) =>
        JoinKeeps(p, shared, token);
        assert p.drawn + {token} == p.drawn;
      case Started(_) =>
        NewIdFits(s, key, id, now);
        AdmitKeeps(p, key, id, token);
    }
  }

  lemma HandOverKeeps(s: State)
    requires Inv(s) && EnqueueStep(s, true).Some?
    ensures Inv(EnqueueStep(s, true).value)
  {
    var id := s.submitting.value;
    var j := s.jobs[id].(future := Pending);
    assert JobInv(s.jobs[id]);
    SameCount(s.jobs, id, j);
    ReplaceKeeps(s, id, j, s.free);
  }

  lemma WithdrawKeepsTable(s: State)
    requires TableInv(s) && LiveInv(s) && LockInv(s) && CloseInv(s) && EnqueueStep(s, false).Some?
    ensures var t := EnqueueStep(s, false).value; TableInv(t) && LiveInv(t) && LockInv(t) && CloseInv(t)
  {
  }

  lemma WithdrawKeeps(s: State)
    requires Inv(s) && EnqueueStep(s, false).Some?
    ensures Inv(EnqueueStep(s, false).value)
  {
    hide TableInv, LiveInv, CloseInv, ControlInv, OutcomeInv, PayloadInv;
    WithdrawKeepsTable(s);
    var id := s.submitting.value;
    var t := EnqueueStep(s, false).value;
    assert Held(t.jobs) == Held(s.jobs) - {id};
    SubsetCard(BusyIds(t.jobs), BusyIds(s.jobs));
  }

  lemma EnqueueKeeps(s: State, accepted: bool)
    requires Inv(s) && EnqueueStep(s, accepted).Some?
    ensures Inv(EnqueueStep(s, accepted).value)
  {
    hide Inv, EnqueueStep;
    if accepted { HandOverKeeps(s); } else { WithdrawKeeps(s); }
  }

  lemma AttachKeepsJob(j: Job)
    requires JobInv(j) && !j.future.Unsubmitted?
    ensures JobInv(j.(attached := true))
  {
  }

  lemma AttachKeeps(s: State)
    requires Inv(s) && AttachStep(s).Some?
    ensures Inv(AttachStep(s).value)
  {
    hide JobInv, Held, BusyIds;
    var id := s.submitting.value;
    var j := s.jobs[id].(attached := true);
    AttachKeepsJob(s.jobs[id]);
    SameCount(s.jobs, id, j);
    ReplaceKeeps(s, id, j, s.free);
  }

  lemma ArmKeeps(s: State)
    requires Inv(s) && ArmStep(s).Some?
    ensures Inv(ArmStep(s).value)
  {
    var id := s.submitting.value;
    var i := s.jobs[id];
    assert JobInv(i);
    var j := i.(callback := if i.future.Settled() then Due else Armed);
    var t := s.(submitting := None, jobs := s.jobs[id := j]);
    assert JobInv(j);
    assert AllJobs(t.jobs);
    SameCount(s.jobs, id, j);
    ArmKeepsTable(s, id, j);
  }

  lemma ArmKeepsTable(s: State, id: JobId, j: Job)
    requires TableInv(s) && LiveInv(s) && LockInv(s) && CloseInv(s) && s.submitting == Some(id)
    requires id in s.jobs && j == s.jobs[id].(callback := j.callback) && !j.callback.Unarmed? && j.attached
    ensures var t := s.(submitting := None, jobs := s.jobs[id := j]);
            TableInv(t) && LiveInv(t) && LockInv(t) && CloseInv(t)
  {
  }

  lemma DetachKeepsJob(j: Job, watcher: Option<Token>)
    requires JobInv(j)
    ensures JobInv(Detach(j, watcher))
  {
    hide ControlInv, OutcomeInv, PayloadInv;
    ClientsKeepJob(j, Detach(j, watcher).watchers, Detach(j, watcher).cancelRequested);
  }

  lemma CancelKeeps(s: State, id: JobId, watcher: Option<Token>)
    requires Inv(s) && s.submitting.None?
    ensures Inv(CancelJob(s, id, watcher))
  {
    if Reaches(s, id) {
      hide JobInv, Held, BusyIds;
      var j := Detach(s.jobs[id], watcher);
      DetachKeepsJob(s.jobs[id], watcher);
      SameCount(s.jobs, id, j);
      ReplaceKeeps(s, id, j, s.free);
    }
  }

  lemma ForcedCancel(s: State, id: JobId)
    requires AllJobs(s.jobs) && TableInv(s)
    ensures var t := CancelJob(s, id, None);
            id in t.jobs ==> !t.jobs[id].Open() || t.jobs[id].cancelRequested
  {
    if id in s.jobs {
      StatusOpen(s.jobs, id);
    }
  }

  lemma FinishTodo(s: State, id: JobId)
    requires Inv(s) && (id in s.jobs ==> !s.jobs[id].Open() || s.jobs[id].cancelRequested)
    ensures Inv(s.(todo := s.todo - {id}))
  {
    assert AllJobs(s.(todo := s.todo - {id}).jobs);
  }

  lemma CloseNextKeeps(s: State, id: JobId)
    requires Inv(s) && s.submitting.None?
    ensures Inv(CancelJob(s, id, None).(todo := s.todo - {id}))
  {
    CancelKeeps(s, id, None);
    ForcedCancel(s, id);
    FinishTodo(CancelJob(s, id, None), id);
  }

  lemma RevokeKeeps(s: State, id: JobId)
    requires Inv(s) && Step(s, Revoke(id)).Some?
    ensures Inv(Step(s, Revoke(id)).value)
  {
    var j := RevokeFuture(s.jobs[id]);
    assert JobInv(s.jobs[id]);
    RevokeKeepsJob(s.jobs[id]);
    SameCount(s.jobs, id, j);
    ReplaceKeeps(s, id, j, s.free);
  }

  lemma PickKeeps(s: State, id: JobId)
    requires Inv(s) && Step(s, Pick(id)).Some?
    ensures Inv(Step(s, Pick(id)).value)
  {
    hide JobInv;
    var j := s.jobs[id].(future := Executing, worker := Picked);
    PickKeepsJob(s.jobs[id]);
    Recount(s.jobs, id, j);
    assert Held(s.jobs) + {id} == Held(s.jobs) by { hide TableInv, LiveInv, LockInv, CloseInv; }
    assert Evolves(s, id, j) by { hide LiveInv, CloseInv, Held, BusyIds; }
    assert |BusyIds(s.jobs[id := j])| <= s.workers by { hide TableInv, LiveInv, LockInv, CloseInv; }
    hide TableInv, LiveInv, LockInv, CloseInv, Evolves, Held, BusyIds;
    ReplaceKeeps(s, id, j, s.free);
  }

  lemma SameClientsKeeps(s: State, id: JobId, j: Job, free: nat)
    requires Inv(s) && id in s.jobs && JobInv(j) && SameClients(s.jobs[id], j)
    requires free + |Held(s.jobs[id := j])| == s.capacity
    requires j.Busy() ==> s.jobs[id].Busy()
    ensures Inv(s.(jobs := s.jobs[id := j], free := free))
  {
    Recount(s.jobs, id, j);
    SubsetCard(BusyIds(s.jobs[id := j]), BusyIds(s.jobs));
    assert id in s.jobs;
    ReplaceKeeps(s, id, j, free);
  }

  lemma WorkKeeps(s: State, id: JobId, e: WorkerEvent)
    requires Inv(s) && id in s.jobs && WorkerStep(s.jobs[id], e).Some?
    ensures Inv(s.(jobs := s.jobs[id := WorkerStep(s.jobs[id], e).value]))
  {
    var i, j := s.jobs[id], WorkerStep(s.jobs[id], e).value;
    assert JobInv(i);
    WorkerStepKeepsJob(i, e);
    HeldAfter(s, id, i, j);
    SameClientsKeeps(s, id, j, s.free);
  }

  // Slots held once one job's callback may have released its own.
  lemma HeldAfter(s: State, id: JobId, i: Job, j: Job)
    requires id in s.jobs && i == s.jobs[id] && !i.callback.Released?
    ensures |Held(s.jobs[id := j])| == |Held(s.jobs)| - (if j.callback.Released? then 1 else 0)
    ensures |Held(s.jobs)| > 0
  {
    Recount(s.jobs, id, j);
    assert id in Held(s.jobs);
    assert Held(s.jobs) + {id} == Held(s.jobs);
  }

  lemma CallbackKeeps(s: State, id: JobId, e: CallbackEvent)
    requires Inv(s) && id in s.jobs && CallbackStep(s.jobs[id], e).Some?
    ensures Inv(s.(jobs := s.jobs[id := CallbackStep(s.jobs[id], e).value],
                   free := if e.Release? then s.free + 1 else s.free))
    ensures s.free < s.capacity
  {
    var i, j := s.jobs[id], CallbackStep(s.jobs[id], e).value;
    assert JobInv(i);
    CallbackStepKeepsJob(i, e);
    HeldAfter(s, id, i, j);
    SameClientsKeeps(s, id, j, if e.Release? then s.free + 1 else s.free);
  }

  lemma CloseKeeps(s: State)
    requires Inv(s) && s.submitting.None?
    ensures Inv(s.(closed := true, todo := s.todo + Active(s)))
  {
    var t := s.(closed := true, todo := s.todo + Active(s));
    assert AllJobs(t.jobs);
    forall id <- s.jobs | s.jobs[id].Open()
      ensures id in Active(s)
    {
      assert JobInv(s.jobs[id]);
    }
  }

  lemma StepInv(s: State, e: Event)
    requires Inv(s) && Step(s, e).Some?
    ensures Inv(Step(s, e).value)
  {
    hide Inv, SubmitStep, EnqueueStep, AttachStep, ArmStep, CancelJob, Prune, Active, WorkerStep,
         CallbackStep, RevokeFuture, BusyIds;
    match e
    case Submit(key, id, token, now) => SubmitKeeps(s, key, id, token, now);
    case Enqueue(accepted) => EnqueueKeeps(s, accepted);
    case Attach => AttachKeeps(s);
    case Arm => ArmKeeps(s);
    case Get(now) => PruneKeeps(s, now);
    case Cancel(id, watcher) => CancelKeeps(s, id, watcher);
    case Revoke(id) => RevokeKeeps(s, id);
    case BeginClose => CloseKeeps(s);
    case CloseNext(id) => CloseNextKeeps(s, id);
    case Pick(id) => PickKeeps(s, id);
    case Work(id, w) => WorkKeeps(s, id, w);
    case Callback(id, c) => CallbackKeeps(s, id, c);
  }

  // The invariant holds in every state of every run.
  lemma {:induction false} RunInv(workers: nat, queue: nat, events: seq<Event>)
    requires Run(Init(workers, queue), events).Some?
    ensures Inv(Run(Init(workers, queue), events).value)
  {
    InitInv(workers, queue);
    if events != [] {
      var before := events[..|events| - 1];
      RunInv(workers, queue, before);
      StepInv(Run(Init(workers, queue), before).value, events[|events| - 1]);
    }
  }
}
