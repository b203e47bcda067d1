/**
 Shutdown drains the job manager.  Once `close` has marked the manager closed and
 finished its cancel loop, no job is admitted any more, every unfinished job is
 doomed, and every internal step uses up a finite budget, at the end of which all
 jobs are terminal and all slots are back.
 */
module JobShutdown {
  import opened Maps
  import opened Wrappers
  import opened JobProtocol
  import opened JobInvariant
  import opened JobHistory

  predicate Draining(s: State) {
    && s.closed && s.submitting.None?
    && forall id <- s.jobs :: !s.jobs[id].Open() || s.jobs[id].cancelRequested
  }

  // Finishing the cancel loop of `close` is what makes a manager drain.
  lemma CloseLoopDooms(workers: nat, queue: nat, events: seq<Event>)
    requires After(workers, queue, events).Some?
    requires var s := After(workers, queue, events).value; s.closed && s.todo == {}
    ensures Draining(After(workers, queue, events).value)
    ensures forall key, id, now ::
      Admit(After(workers, queue, events).value, key, id, now) == Refused
  {
    RunInv(workers, queue, events);
  }

  // ---- the budget ------------------------------------------------------------

  // Steps of the run closure still to come, when the cancel flag stays set.
  function WorkerBudget(j: Job): nat {
    match j.worker
    case Waiting => if j.future.Revoked? then 0 else 12
    case Picked => 11
    case Marked => 10
    case Calling => 9
    case Returned(_) => 8
    case Saving(_) => 7
    case Failing(_, _) => 7
    case Finishing(_) => 6
    case Publishing(_) => 5
    case Signalling => 4
    case Exiting => 3
    case Gone => 0
  }

  function CallbackBudget(j: Job): nat {
    match j.callback
    case Unarmed => 8
    case Armed => 7
    case Due => 6
    case Recording => 5
    case Stamping => 4
    case Posting => 3
    case Ringing => 2
    case Releasing => 1
    case Released => 0
  }

  function Budget(j: Job): nat { WorkerBudget(j) + CallbackBudget(j) }

  ghost function Total(jobs: map<JobId, Job>): nat { Sum(jobs, Budget) }

  lemma TotalUpdate(jobs: map<JobId, Job>, id: JobId, j: Job)
    requires id in jobs
    ensures Total(jobs[id := j]) == Total(jobs) - Budget(jobs[id]) + Budget(j)
  {
    SumUpdate(jobs, Budget, id, j);
  }

  // ---- every internal step spends some of it ------------------------------------

  // Steps of workers, callbacks and the executor, as against client calls.
  predicate Internal(e: Event) { e.Work? || e.Callback? || e.Pick? }

  lemma WorkSpends(j: Job, w: WorkerEvent)
    requires JobInv(j) && WorkerStep(j, w).Some? && (j.Open() ==> j.cancelRequested)
    ensures Budget(WorkerStep(j, w).value) < Budget(j)
  {
  }

  lemma CallbackSpends(j: Job, c: CallbackEvent)
    requires CallbackStep(j, c).Some?
    ensures Budget(CallbackStep(j, c).value) < Budget(j)
  {
  }

  // The effect of a step while draining: one job at most changes, and its budget tells how.
  lemma DrainStep(s: State, e: Event)
    requires Inv(s) && Draining(s) && Step(s, e).Some?
    ensures var t := Step(s, e).value;
            && Draining(t)
            && t.jobs.Keys == s.jobs.Keys
            && Total(t.jobs) <= Total(s.jobs) - (if Internal(e) then 1 else 0)
  {
    hide JobInv, TableInv, LiveInv, LockInv, SlotInv, CloseInv, Draining, Total, WorkerStep, CallbackStep,
         CancelJob, RevokeFuture, Prune, BusyIds, SubmitStep, EnqueueStep, AttachStep, ArmStep, Active;
    match e
    case Get(now) => PruneDrains(s, now);
    case Cancel(id, w) => CancelSpendsNothing(s, id, w);
    case CloseNext(id) =>
      CancelSpendsNothing(s, id, None);
      SameDraining(CancelJob(s, id, None), Step(s, e).value);
    case Revoke(id) => RevokeDrains(s, id);
    case Pick(id) => PickDrains(s, id);
    case Work(id, w) => WorkDrains(s, id, w);
    case Callback(id, c) =>
      CallbackDrains(s, id, c);
      var t := Step(s, e).value;
      SameDraining(s.(jobs := t.jobs), t);
    case _ => OthersDrain(s, e);
  }

  lemma SameDraining(s: State, t: State)
    requires Draining(s) && (t.closed, t.submitting, t.jobs) == (s.closed, s.submitting, s.jobs)
    ensures Draining(t)
  {
  }

  lemma PruneDrains(s: State, now: real)
    requires Draining(s)
    ensures Draining(Prune(s, now)) && Prune(s, now).jobs == s.jobs
  {
  }

  // Submissions are refused, and closing again changes no job.
  lemma OthersDrain(s: State, e: Event)
    requires Draining(s) && Step(s, e).Some? && (e.Submit? || e.Enqueue? || e.Attach? || e.Arm? || e.BeginClose?)
    ensures var t := Step(s, e).value; Draining(t) && t.jobs == s.jobs
  {
  }

  lemma RevokeDrains(s: State, id: JobId)
    requires Draining(s) && id in s.jobs && AllJobs(s.jobs)
    ensures var jobs := s.jobs[id := RevokeFuture(s.jobs[id])];
            Draining(s.(jobs := jobs)) && Total(jobs) <= Total(s.jobs)
  {
    assert JobInv(s.jobs[id]);
    TotalUpdate(s.jobs, id, RevokeFuture(s.jobs[id]));
  }

  lemma PickDrains(s: State, id: JobId)
    requires Draining(s) && id in s.jobs && AllJobs(s.jobs) && s.jobs[id].future.Pending?
    ensures var jobs := s.jobs[id := s.jobs[id].(future := Executing, worker := Picked)];
            Draining(s.(jobs := jobs)) && Total(jobs) < Total(s.jobs)
  {
    assert JobInv(s.jobs[id]);
    TotalUpdate(s.jobs, id, s.jobs[id].(future := Executing, worker := Picked));
  }

  lemma CancelSpendsNothing(s: State, id: JobId, w: Option<Token>)
    requires Draining(s)
    ensures var t := CancelJob(s, id, w);
            Draining(t) && t.jobs.Keys == s.jobs.Keys && Total(t.jobs) == Total(s.jobs)
  {
    if Reaches(s, id) {
      DetachSpendsNothing(s.jobs[id], w);
      TotalUpdate(s.jobs, id, Detach(s.jobs[id], w));
    }
  }

  lemma DetachSpendsNothing(j: Job, w: Option<Token>)
    ensures Budget(Detach(j, w)) == Budget(j) && Detach(j, w).Open() == j.Open()
    ensures j.cancelRequested ==> Detach(j, w).cancelRequested
  {
  }

  lemma WorkDrains(s: State, id: JobId, w: WorkerEvent)
    requires AllJobs(s.jobs) && Draining(s) && id in s.jobs && WorkerStep(s.jobs[id], w).Some?
    ensures var jobs := s.jobs[id := WorkerStep(s.jobs[id], w).value];
            Draining(s.(jobs := jobs)) && Total(jobs) < Total(s.jobs)
  {
    assert JobInv(s.jobs[id]);
    WorkSpends(s.jobs[id], w);
    WorkerStepKeepsJob(s.jobs[id], w);
    TotalUpdate(s.jobs, id, WorkerStep(s.jobs[id], w).value);
  }

  lemma CallbackDrains(s: State, id: JobId, c: CallbackEvent)
    requires AllJobs(s.jobs) && Draining(s) && id in s.jobs && CallbackStep(s.jobs[id], c).Some?
    ensures var jobs := s.jobs[id := CallbackStep(s.jobs[id], c).value];
            Draining(s.(jobs := jobs)) && Total(jobs) < Total(s.jobs)
  {
    assert JobInv(s.jobs[id]);
    CallbackSpends(s.jobs[id], c);
    CallbackStepKeepsJob(s.jobs[id], c);
    TotalUpdate(s.jobs, id, CallbackStep(s.jobs[id], c).value);
  }

  function InternalSteps(events: seq<Event>): nat {
    if events == [] then 0 else
    InternalSteps(events[..|events| - 1]) + if Internal(events[|events| - 1]) then 1 else 0
  }

  // However clients, workers and callbacks interleave after the cancel loop, only a bounded
  // number of internal steps remains.
  lemma {:induction false} DrainIsBounded(workers: nat, queue: nat, events: seq<Event>, more: seq<Event>)
    requires After(workers, queue, events).Some? && After(workers, queue, events + more).Some?
    requires var s := After(workers, queue, events).value; s.closed && s.todo == {}
    ensures var s, t := After(workers, queue, events).value, After(workers, queue, events + more).value;
            && Draining(t) && t.jobs.Keys == s.jobs.Keys
            && InternalSteps(more) + Total(t.jobs) <= Total(s.jobs)
    decreases |more|
  {
    if more == [] {
      assert events + more == events;
      CloseLoopDooms(workers, queue, events);
    } else {
      var before := more[..|more| - 1];
      assert (events + more)[..|events + more| - 1] == events + before;
      DrainIsBounded(workers, queue, events, before);
      RunInv(workers, queue, events + before);
      DrainStep(After(workers, queue, events + before).value, more[|more| - 1]);
    }
  }

  // ---- nothing gets stuck ---------------------------------------------------------

  predicate Settled(s: State) {
    forall id <- s.jobs ::
      !s.jobs[id].status.Live() && s.jobs[id].event && s.jobs[id].callback.Released?
  }

  function NextWork(j: Job): WorkerEvent {
    match j.worker
    case Picked => Start
    case Marked => PreCheck
    case Calling => Progress(0)
    case Returned(_) => PostCheck
    case Saving(_) => Save
    case Failing(_, _) => RecordFault
    case Finishing(_) => Stamp(0.0)
    case Publishing(_) => Publish
    case Signalling => Signal
    case _ => Resolve
  }

  function NextCallback(j: Job): CallbackEvent {
    match j.callback
    case Recording => Record
    case Stamping => StampEnd(0.0)
    case Posting => Post
    case Ringing => Ring
    case Releasing => Release
    case _ => Inspect
  }

  // While draining, either some internal step is possible or everything is settled and all
  // slots are free.
  lemma DrainProgresses(s: State) returns (e: Event)
    requires Inv(s) && Draining(s) && s.workers > 0
    ensures Settled(s) ==> s.free == s.capacity
    ensures !Settled(s) ==> Internal(e) && Step(s, e).Some?
  {
    e := Pick("");
    if forall id <- s.jobs :: s.jobs[id].callback.Released? {
      forall id <- s.jobs
        ensures !s.jobs[id].status.Live() && s.jobs[id].event
      {
        assert JobInv(s.jobs[id]);
      }
      assert Held(s.jobs) == {};
    } else {
      var id :| id in s.jobs && !s.jobs[id].callback.Released?;
      e := JobProgresses(s, id);
    }
  }

  lemma JobProgresses(s: State, id: JobId) returns (e: Event)
    requires Inv(s) && Draining(s) && s.workers > 0 && id in s.jobs && !s.jobs[id].callback.Released?
    ensures Internal(e) && Step(s, e).Some?
  {
    hide TableInv, LiveInv, CloseInv;
    var j := s.jobs[id];
    assert JobInv(j);
    if j.Busy() {
      e := BusyProgresses(s, id);
    } else if j.future.Pending? {
      if |BusyIds(s.jobs)| < s.workers {
        e := Pick(id);
      } else {
        var other :| other in BusyIds(s.jobs);
        e := BusyProgresses(s, other);
      }
    } else {
      e := Event.Callback(id, NextCallback(j));
    }
  }

  lemma BusyProgresses(s: State, id: JobId) returns (e: Event)
    requires id in s.jobs && s.jobs[id].Busy()
    ensures Internal(e) && Step(s, e).Some?
  {
    e := Work(id, NextWork(s.jobs[id]));
  }

  // Every run that cannot take another internal step after the cancel loop has ended all
  // its jobs and returned all its slots.
  lemma ShutdownDrains(workers: nat, queue: nat, events: seq<Event>, more: seq<Event>)
    requires workers > 0
    requires After(workers, queue, events).Some? && After(workers, queue, events + more).Some?
    requires var s := After(workers, queue, events).value; s.closed && s.todo == {}
    ensures InternalSteps(more) <= Total(After(workers, queue, events).value.jobs)
    ensures var t := After(workers, queue, events + more).value;
            (forall e :: Internal(e) ==> Step(t, e).None?) <==> (Settled(t) && t.free == workers + queue)
  {
    DrainIsBounded(workers, queue, events, more);
    RunInv(workers, queue, events + more);
    CapacityConstant(workers, queue, events + more);
    var t := After(workers, queue, events + more).value;
    var e := DrainProgresses(t);
    if Settled(t) {
      forall f | Internal(f)
        ensures Step(t, f).None?
      {
        SettledIsStill(t, f);
      }
    }
  }

  lemma SettledIsStill(s: State, e: Event)
    requires Inv(s) && Settled(s) && Internal(e)
    ensures Step(s, e).None?
  {
    if e.id in s.jobs {
      assert JobInv(s.jobs[e.id]);
    }
  }
}
