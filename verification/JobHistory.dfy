/**
 What clients can rely on over whole runs of the job protocol: who may cancel a
 scan, that each job ends exactly once and stays ended, what `done` means, which
 submissions share a job, and that slots are conserved.
 */
module JobHistory {
  import opened Wrappers
  import opened Sets
  import opened JobProtocol
  import opened JobInvariant

  // Every run in this module starts from an empty manager.
  function After(workers: nat, queue: nat, events: seq<Event>): Option<State> {
    Run(Init(workers, queue), events)
  }

  // ---- what one step may do to one job ---------------------------------------

  predicate Admits(s: State, e: Event, id: JobId) {
    e.Submit? && s.submitting.None?
    && (Admit(s, e.key, e.id, e.now) == Joined(id) || Admit(s, e.key, e.id, e.now) == Admission.Started(id))
  }

  predicate Detaches(s: State, e: Event, id: JobId) {
    e.Cancel? && e.id == id && e.watcher.Some? && Reaches(s, id)
  }

  predicate Forces(e: Event, id: JobId) {
    (e.Cancel? && e.id == id && e.watcher.None?) || (e.CloseNext? && e.id == id)
  }

  function WatchersAfter(s: State, e: Event, id: JobId): set<Token>
    requires id in s.jobs
  {
    if Admits(s, e, id) then s.jobs[id].watchers + {e.token}
    else if Detaches(s, e, id) then s.jobs[id].watchers - {e.watcher.value}
    else s.jobs[id].watchers
  }

  lemma JobStepsKeepClients(j: Job)
    ensures forall w :: WorkerStep(j, w).Some? ==>
      WorkerStep(j, w).value.watchers == j.watchers
      && WorkerStep(j, w).value.cancelRequested == j.cancelRequested
    ensures forall c :: CallbackStep(j, c).Some? ==>
      CallbackStep(j, c).value.watchers == j.watchers
      && CallbackStep(j, c).value.cancelRequested == j.cancelRequested
  {
  }

  lemma SubmitClients(s: State, e: Event, t: State, id: JobId)
    requires s.jobs.Keys <= s.drawn && id in t.jobs
    requires e.Submit? && SubmitStep(s, e.key, e.id, e.token, e.now) == Some(t)
    ensures if id in s.jobs then
              && t.jobs[id].watchers == s.jobs[id].watchers + (if Admits(s, e, id) then {e.token} else {})
              && t.jobs[id].cancelRequested == s.jobs[id].cancelRequested
              && (Admits(s, e, id) ==> !s.jobs[id].cancelRequested)
            else
              Admits(s, e, id) && id == e.id && t.jobs[id] == NewJob(e.key, e.token)
  {
  }

  lemma LockedClients(s: State, e: Event, t: State, id: JobId)
    requires id in t.jobs
    requires (e.Enqueue? && EnqueueStep(s, e.accepted) == Some(t))
             || (e.Attach? && AttachStep(s) == Some(t)) || (e.Arm? && ArmStep(s) == Some(t))
    ensures id in s.jobs
    ensures t.jobs[id].watchers == s.jobs[id].watchers && t.jobs[id].cancelRequested == s.jobs[id].cancelRequested
  {
  }

  lemma StepClients(s: State, e: Event, id: JobId)
    requires s.jobs.Keys <= s.drawn
    requires Step(s, e).Some? && id in Step(s, e).value.jobs
    ensures var t := Step(s, e).value;
            if id in s.jobs then
              && t.jobs[id].watchers == WatchersAfter(s, e, id)
              && (s.jobs[id].cancelRequested ==> t.jobs[id].cancelRequested)
              && (t.jobs[id].cancelRequested && !s.jobs[id].cancelRequested ==>
                    Forces(e, id) || t.jobs[id].watchers == {})
              && (Admits(s, e, id) ==> !s.jobs[id].cancelRequested)
            else
              Admits(s, e, id) && id == e.id && t.jobs[id] == NewJob(e.key, e.token)
  {
    hide WorkerStep, CallbackStep, SubmitStep, EnqueueStep, AttachStep, ArmStep;
    match e
    case Submit(_, _, _, _) => SubmitClients(s, e, Step(s, e).value, id);
    case Enqueue(_) => LockedClients(s, e, Step(s, e).value, id);
    case Attach => LockedClients(s, e, Step(s, e).value, id);
    case Arm => LockedClients(s, e, Step(s, e).value, id);
    case Work(i, w) => JobStepsKeepClients(s.jobs[i]);
    case Callback(i, c) => JobStepsKeepClients(s.jobs[i]);
    case _ =>
  }

  // What the proofs below use of the invariant.
  lemma RunJobs(workers: nat, queue: nat, events: seq<Event>)
    requires After(workers, queue, events).Some?
    ensures var s := After(workers, queue, events).value;
            && s.jobs.Keys <= s.drawn
            && forall id <- s.jobs :: JobInv(s.jobs[id]) && s.jobs[id].watchers <= s.drawn
  {
    RunInv(workers, queue, events);
  }

  // ---- tokens issued and detached over a run ----------------------------------

  function Issued(workers: nat, queue: nat, events: seq<Event>, id: JobId): set<Token> {
    if events == [] then {} else
    var before, e := events[..|events| - 1], events[|events| - 1];
    var s := After(workers, queue, before);
    Issued(workers, queue, before, id)
    + if s.Some? && Admits(s.value, e, id) then {e.token} else {}
  }

  function Detached(workers: nat, queue: nat, events: seq<Event>, id: JobId): set<Token> {
    if events == [] then {} else
    var before, e := events[..|events| - 1], events[|events| - 1];
    var s := After(workers, queue, before);
    Detached(workers, queue, before, id)
    + if s.Some? && Detaches(s.value, e, id) && e.watcher.value in Issued(workers, queue, before, id)
      then {e.watcher.value} else {}
  }

  predicate Forced(events: seq<Event>, id: JobId) {
    exists e <- events :: Forces(e, id)
  }

  lemma StepDraws(s: State, e: Event)
    requires s.jobs.Keys <= s.drawn && Step(s, e).Some?
    ensures s.drawn <= Step(s, e).value.drawn
    ensures forall id :: Admits(s, e, id) ==>
      e.token !in s.drawn && e.token in Step(s, e).value.drawn
      && (if id == e.id then id !in s.drawn && id in Step(s, e).value.drawn else id in s.jobs)
  {
  }

  lemma {:induction false} WatchersExact(workers: nat, queue: nat, events: seq<Event>, id: JobId)
    requires After(workers, queue, events).Some?
    ensures var s := After(workers, queue, events).value;
            && (id in s.jobs ==>
                  s.jobs[id].watchers
                  == Issued(workers, queue, events, id) - Detached(workers, queue, events, id))
            && Detached(workers, queue, events, id) <= Issued(workers, queue, events, id) <= s.drawn
            && (id !in s.drawn ==> Issued(workers, queue, events, id) == {})
  {
    hide Step;
    if events != [] {
      var before, e := events[..|events| - 1], events[|events| - 1];
      WatchersExact(workers, queue, before, id);
      RunJobs(workers, queue, before);
      var s := After(workers, queue, before).value;
      StepDraws(s, e);
      if id in Step(s, e).value.jobs {
        StepClients(s, e, id);
      }
    }
  }

  lemma {:induction false} CancelHasCause(workers: nat, queue: nat, events: seq<Event>, id: JobId)
    requires After(workers, queue, events).Some?
    ensures var s := After(workers, queue, events).value;
            id in s.jobs && s.jobs[id].cancelRequested ==>
              Forced(events, id) || s.jobs[id].watchers == {}
  {
    hide Step;
    if events != [] {
      var before, e := events[..|events| - 1], events[|events| - 1];
      CancelHasCause(workers, queue, before, id);
      RunJobs(workers, queue, before);
      assert events == before + [e];
      assert Forced(before, id) ==> Forced(events, id) by {
        if Forced(before, id) {
          var f :| f in before && Forces(f, id);
          assert f in events;
        }
      }
      if id in Step(After(workers, queue, before).value, e).value.jobs {
        StepClients(After(workers, queue, before).value, e, id);
        assert e in events;
      }
    }
  }

  // Without a forced cancel, a scan is doomed exactly when every client that was
  // ever given a token for it has detached; until then it cannot end cancelled.
  lemma OnlyLastWatcherCancels(workers: nat, queue: nat, events: seq<Event>, id: JobId)
    requires After(workers, queue, events).Some? && id in After(workers, queue, events).value.jobs
    requires !Forced(events, id)
    ensures var j := After(workers, queue, events).value.jobs[id];
            && (j.cancelRequested <==>
                  Issued(workers, queue, events, id) <= Detached(workers, queue, events, id))
            && (j.status.Cancelled? ==>
                  Issued(workers, queue, events, id) <= Detached(workers, queue, events, id))
  {
    WatchersExact(workers, queue, events, id);
    CancelHasCause(workers, queue, events, id);
    RunJobs(workers, queue, events);
    var s := After(workers, queue, events).value;
    var j := s.jobs[id];
    assert JobInv(j);
    assert !j.cancelRequested ==> exists w :: w in j.watchers;
    if Issued(workers, queue, events, id) <= Detached(workers, queue, events, id) {
      assert j.watchers == {};
    }
  }

  // ---- one terminal transition ------------------------------------------------

  function RunEnds(events: seq<Event>, id: JobId): nat {
    if events == [] then 0 else
    RunEnds(events[..|events| - 1], id)
    + if events[|events| - 1] == Work(id, Publish) then 1 else 0
  }

  function CallbackEnds(events: seq<Event>, id: JobId): nat {
    if events == [] then 0 else
    CallbackEnds(events[..|events| - 1], id)
    + if events[|events| - 1] == Event.Callback(id, Post) then 1 else 0
  }

  // A step of anything but the job's own worker or callback leaves its record alone.
  predicate SameRecord(j: Job, k: Job) {
    && k.status == j.status && k.result == j.result && k.error == j.error
    && k.finished == j.finished && k.event == j.event
    && (k.worker == j.worker || (j.worker.Waiting? && k.worker.Picked?))
    && (j.future.Revoked? ==> k.future.Revoked?)
  }

  predicate Own(e: Event, id: JobId) {
    (e.Work? || e.Callback?) && e.id == id
  }

  lemma SubmitRecord(s: State, e: Event, id: JobId)
    requires e.Submit? && SubmitStep(s, e.key, e.id, e.token, e.now).Some? && id in s.jobs
    requires s.jobs.Keys <= s.drawn
    ensures var t := SubmitStep(s, e.key, e.id, e.token, e.now).value;
            id in t.jobs && t.jobs[id] == s.jobs[id].(watchers := t.jobs[id].watchers)
  {
  }

  lemma LockedRecord(s: State, e: Event, t: State, id: JobId)
    requires id in s.jobs
    requires (e.Enqueue? && EnqueueStep(s, e.accepted) == Some(t))
             || (e.Attach? && AttachStep(s) == Some(t)) || (e.Arm? && ArmStep(s) == Some(t))
    ensures id in t.jobs ==>
      SameRecord(s.jobs[id], t.jobs[id]) && t.jobs[id].worker == s.jobs[id].worker
    ensures id !in t.jobs ==> s.submitting == Some(id) && s.jobs[id].future.Unsubmitted?
  {
  }

  lemma CancelRecord(s: State, target: JobId, watcher: Option<Token>, id: JobId)
    requires id in s.jobs
    ensures var t := CancelJob(s, target, watcher);
            id in t.jobs && SameRecord(s.jobs[id], t.jobs[id]) && t.jobs[id].worker == s.jobs[id].worker
  {
  }

  lemma RevokeRecord(j: Job)
    ensures SameRecord(j, RevokeFuture(j)) && RevokeFuture(j).worker == j.worker
  {
  }

  lemma StepRecord(s: State, e: Event, id: JobId)
    requires Step(s, e).Some? && id in s.jobs && !Own(e, id) && s.jobs.Keys <= s.drawn
    requires s.jobs[id].future.Pending? ==> s.jobs[id].worker.Waiting?
    ensures id in Step(s, e).value.jobs ==>
      && SameRecord(s.jobs[id], Step(s, e).value.jobs[id])
      && (e.Pick? && e.id == id ==> !Step(s, e).value.jobs[id].worker.Waiting?)
    ensures id !in Step(s, e).value.jobs ==> s.submitting == Some(id) && s.jobs[id].future.Unsubmitted?
  {
    hide SubmitStep, EnqueueStep, AttachStep, ArmStep, CancelJob, RevokeFuture, WorkerStep, CallbackStep;
    match e
    case Submit(_, _, _, _) => SubmitRecord(s, e, id);
    case Enqueue(_) => LockedRecord(s, e, Step(s, e).value, id);
    case Attach => LockedRecord(s, e, Step(s, e).value, id);
    case Arm => LockedRecord(s, e, Step(s, e).value, id);
    case Cancel(i, w) => CancelRecord(s, i, w, id);
    case CloseNext(i) => CancelRecord(s, i, None, id);
    case Revoke(i) => RevokeRecord(s.jobs[i]);
    case _ =>
  }

  lemma OwnStep(s: State, e: Event, id: JobId)
    requires Step(s, e).Some? && id in s.jobs && Own(e, id)
    ensures id in Step(s, e).value.jobs
    ensures e.Work? ==> WorkerStep(s.jobs[id], e.work) == Some(Step(s, e).value.jobs[id])
    ensures e.Callback? ==> CallbackStep(s.jobs[id], e.step) == Some(Step(s, e).value.jobs[id])
  {
  }

  // Publishing is the only way from a live status to a terminal one.
  lemma StepStatus(s: State, e: Event, t: State, id: JobId)
    requires s.jobs.Keys <= s.drawn
    requires Step(s, e) == Some(t) && id in t.jobs && id in s.jobs && JobInv(s.jobs[id])
    ensures if e == Work(id, Publish) || e == Event.Callback(id, Post) then
              s.jobs[id].status.Live() && !t.jobs[id].status.Live()
            else t.jobs[id].status.Live() == s.jobs[id].status.Live()
  {
    if Own(e, id) {
      OwnStep(s, e, id);
      match e
      case Work(_, w) => WorkerStatus(s.jobs[id], w);
      case Callback(_, c) => CallbackStatus(s.jobs[id], c);
    } else {
      StepRecord(s, e, id);
    }
  }

  lemma WorkerStatus(j: Job, w: WorkerEvent)
    requires JobInv(j) && WorkerStep(j, w).Some?
    ensures if w.Publish? then j.status.Live() && !WorkerStep(j, w).value.status.Live()
            else WorkerStep(j, w).value.status.Live() == j.status.Live()
  {
  }

  lemma CallbackStatus(j: Job, c: CallbackEvent)
    requires JobInv(j) && CallbackStep(j, c).Some?
    ensures if c.Post? then j.status.Live() && !CallbackStep(j, c).value.status.Live()
            else CallbackStep(j, c).value.status.Live() == j.status.Live()
  {
  }

  lemma StepNeedsJob(s: State, e: Event, id: JobId)
    requires Step(s, e).Some? && (e.Work? || e.Callback? || e.Pick?) && e.id == id
    ensures id in s.jobs && id in Step(s, e).value.jobs
  {
  }

  lemma {:induction false} NoEventsBeforeDraw(workers: nat, queue: nat, events: seq<Event>, id: JobId)
    requires After(workers, queue, events).Some?
    requires id !in After(workers, queue, events).value.drawn
    ensures RunEnds(events, id) == 0 && CallbackEnds(events, id) == 0
    ensures forall e <- events :: (e.Work? || e.Pick?) ==> e.id != id
  {
    hide Step;
    if events != [] {
      var before, e := events[..|events| - 1], events[|events| - 1];
      RunJobs(workers, queue, before);
      var s := After(workers, queue, before).value;
      StepDraws(s, e);
      NoEventsBeforeDraw(workers, queue, before, id);
      if (e.Work? || e.Callback? || e.Pick?) && e.id == id {
        StepNeedsJob(s, e, id);
      }
      assert events == before + [e];
    }
  }

  lemma {:induction false} EndsOnce(workers: nat, queue: nat, events: seq<Event>, id: JobId)
    requires After(workers, queue, events).Some? && id in After(workers, queue, events).value.jobs
    ensures RunEnds(events, id) + CallbackEnds(events, id)
            == if After(workers, queue, events).value.jobs[id].status.Live() then 0 else 1
  {
    hide Step;
    if events != [] {
      var before, e := events[..|events| - 1], events[|events| - 1];
      RunJobs(workers, queue, before);
      var s := After(workers, queue, before).value;
      if id in s.jobs {
        assert JobInv(s.jobs[id]);
        StepStatus(s, e, Step(s, e).value, id);
        EndsOnce(workers, queue, before, id);
      } else {
        StepClients(s, e, id);
        StepDraws(s, e);
        NoEventsBeforeDraw(workers, queue, before, id);
      }
    }
  }

  // Once stamped, a job's outcome never changes; once terminal, neither does its status.
  predicate Frozen(j: Job, k: Job) {
    && (!j.Open() ==> k.finished == j.finished && k.result == j.result && k.error == j.error)
    && (!j.status.Live() ==> k.status == j.status)
  }

  lemma WorkerFreezes(j: Job, w: WorkerEvent)
    requires JobInv(j) && WorkerStep(j, w).Some?
    ensures Frozen(j, WorkerStep(j, w).value)
  {
  }

  lemma CallbackFreezes(j: Job, c: CallbackEvent)
    requires JobInv(j) && CallbackStep(j, c).Some?
    ensures Frozen(j, CallbackStep(j, c).value)
  {
  }

  lemma StepFreezes(s: State, e: Event, t: State, id: JobId)
    requires s.jobs.Keys <= s.drawn
    requires Step(s, e) == Some(t) && id in s.jobs && JobInv(s.jobs[id]) && !s.jobs[id].Open()
    ensures id in t.jobs && Frozen(s.jobs[id], t.jobs[id])
  {
    if Own(e, id) {
      OwnStep(s, e, id);
      match e
      case Work(_, w) => WorkerFreezes(s.jobs[id], w);
      case Callback(_, c) => CallbackFreezes(s.jobs[id], c);
    } else {
      StepRecord(s, e, id);
    }
  }

  lemma {:induction false} OutcomeIsFinal(workers: nat, queue: nat, events: seq<Event>, more: seq<Event>, id: JobId)
    requires After(workers, queue, events + more).Some? && After(workers, queue, events).Some?
    requires id in After(workers, queue, events).value.jobs
    requires !After(workers, queue, events).value.jobs[id].Open()
    ensures id in After(workers, queue, events + more).value.jobs
    ensures Frozen(After(workers, queue, events).value.jobs[id],
                   After(workers, queue, events + more).value.jobs[id])
    decreases |more|
  {
    hide Step;
    if more == [] {
      assert events + more == events;
    } else {
      var before, e := more[..|more| - 1], more[|more| - 1];
      assert (events + more)[..|events + more| - 1] == events + before;
      OutcomeIsFinal(workers, queue, events, before, id);
      RunJobs(workers, queue, events + before);
      var s := After(workers, queue, events + before).value;
      assert JobInv(s.jobs[id]);
      StepFreezes(s, e, Step(s, e).value, id);
    }
  }

  // ---- what `done` and `cancelled` mean ----------------------------------------

  // The scan returned v, and its cancel flag was clear at the check that followed.
  predicate PassedCheck(workers: nat, queue: nat, events: seq<Event>, id: JobId, v: Payload) {
    events != [] &&
    var before, e := events[..|events| - 1], events[|events| - 1];
    var s := After(workers, queue, before);
    || PassedCheck(workers, queue, before, id, v)
    || (s.Some? && e == Work(id, PostCheck) && id in s.value.jobs
        && s.value.jobs[id].worker == Returned(v) && !s.value.jobs[id].cancelRequested
        && Work(id, Return(v)) in before)
  }

  // The value the run closure carries after its scan returned, if any.
  function InHand(j: Job): Option<Payload> {
    if j.worker.Returned? || j.worker.Saving? then Some(j.worker.value) else j.result
  }

  lemma WorkerCarries(j: Job, w: WorkerEvent, v: Payload)
    requires JobInv(j) && WorkerStep(j, w).Some?
    ensures var k := WorkerStep(j, w).value;
            InHand(k) == Some(v) ==>
              if k.worker.Returned? then w == Return(v) && !j.worker.Returned?
              else InHand(j) == Some(v)
                   && (j.worker.Returned? ==> w.PostCheck? && !j.cancelRequested)
  {
  }

  lemma CallbackCarries(j: Job, c: CallbackEvent)
    requires CallbackStep(j, c).Some?
    ensures InHand(CallbackStep(j, c).value) == InHand(j)
    ensures CallbackStep(j, c).value.worker == j.worker
  {
  }

  lemma StepCarries(s: State, e: Event, t: State, id: JobId, v: Payload)
    requires s.jobs.Keys <= s.drawn
    requires Step(s, e) == Some(t) && id in s.jobs && id in t.jobs && JobInv(s.jobs[id])
    requires InHand(t.jobs[id]) == Some(v)
    ensures var j, k := s.jobs[id], t.jobs[id];
            if k.worker.Returned? && !j.worker.Returned? then e == Work(id, Return(v))
            else InHand(j) == Some(v)
                 && (j.worker.Returned? && !k.worker.Returned? ==>
                       e == Work(id, PostCheck) && !j.cancelRequested)
  {
    if Own(e, id) {
      OwnStep(s, e, id);
      match e
      case Work(_, w) => WorkerCarries(s.jobs[id], w, v);
      case Callback(_, c) => CallbackCarries(s.jobs[id], c);
    } else {
      StepRecord(s, e, id);
    }
  }

  lemma {:induction false} ResultHasCause(workers: nat, queue: nat, events: seq<Event>, id: JobId, v: Payload)
    requires After(workers, queue, events).Some? && id in After(workers, queue, events).value.jobs
    requires InHand(After(workers, queue, events).value.jobs[id]) == Some(v)
    ensures if After(workers, queue, events).value.jobs[id].worker.Returned?
            then Work(id, Return(v)) in events
            else PassedCheck(workers, queue, events, id, v)
  {
    hide Step;
    if events != [] {
      var before, e := events[..|events| - 1], events[|events| - 1];
      RunJobs(workers, queue, before);
      var s := After(workers, queue, before).value;
      assert events == before + [e];
      if id in s.jobs {
        StepCarries(s, e, Step(s, e).value, id, v);
        if InHand(s.jobs[id]) == Some(v) {
          ResultHasCause(workers, queue, before, id, v);
        }
      } else {
        StepClients(s, e, id);
      }
    }
  }

  lemma DoneMeansReturned(workers: nat, queue: nat, events: seq<Event>, id: JobId)
    requires After(workers, queue, events).Some? && id in After(workers, queue, events).value.jobs
    requires After(workers, queue, events).value.jobs[id].status.Done?
    ensures var j := After(workers, queue, events).value.jobs[id];
            && j.result.Some? && j.error.None?
            && PassedCheck(workers, queue, events, id, j.result.value)
            && RunEnds(events, id) == 1 && CallbackEnds(events, id) == 0
  {
    RunJobs(workers, queue, events);
    var j := After(workers, queue, events).value.jobs[id];
    assert JobInv(j);
    ResultHasCause(workers, queue, events, id, j.result.value);
    EndsOnce(workers, queue, events, id);
    if CallbackEnds(events, id) > 0 {
      CallbackEndsUnstarted(workers, queue, events, id);
      NeverStarted(workers, queue, events, id);
      assert false;
    }
  }

  // A job whose run closure has not begun was never picked up by a worker.
  lemma {:induction false} NeverStarted(workers: nat, queue: nat, events: seq<Event>, id: JobId)
    requires After(workers, queue, events).Some? && id in After(workers, queue, events).value.jobs
    requires After(workers, queue, events).value.jobs[id].worker.Waiting?
    ensures forall e <- events :: (e.Work? || e.Pick?) ==> e.id != id
  {
    hide Step;
    if events != [] {
      var before, e := events[..|events| - 1], events[|events| - 1];
      RunJobs(workers, queue, before);
      var s := After(workers, queue, before).value;
      assert events == before + [e];
      if id !in s.jobs {
        StepClients(s, e, id);
        StepDraws(s, e);
        NoEventsBeforeDraw(workers, queue, before, id);
      } else {
        assert JobInv(s.jobs[id]);
        StepWaiting(s, e, Step(s, e).value, id);
        NeverStarted(workers, queue, before, id);
      }
    }
  }

  lemma StepWaiting(s: State, e: Event, t: State, id: JobId)
    requires s.jobs.Keys <= s.drawn
    requires Step(s, e) == Some(t) && id in s.jobs && id in t.jobs && JobInv(s.jobs[id])
    requires t.jobs[id].worker.Waiting?
    ensures s.jobs[id].worker.Waiting? && ((e.Work? || e.Pick?) ==> e.id != id)
  {
    if Own(e, id) {
      OwnStep(s, e, id);
      match e
      case Work(_, w) => WorkerStepKeepsJob(s.jobs[id], w);
      case Callback(_, c) => CallbackCarries(s.jobs[id], c);
    } else {
      StepRecord(s, e, id);
    }
  }

  // The done-callback only ever ends a job that was cancelled while queued ...
  lemma {:induction false} CallbackEndsUnstarted(workers: nat, queue: nat, events: seq<Event>, id: JobId)
    requires After(workers, queue, events).Some? && id in After(workers, queue, events).value.jobs
    requires CallbackEnds(events, id) > 0
    ensures var j := After(workers, queue, events).value.jobs[id];
            j.future.Revoked? && j.worker.Waiting? && j.status.Cancelled?
  {
    var before, e := events[..|events| - 1], events[|events| - 1];
    RunJobs(workers, queue, before);
    RunJobs(workers, queue, events);
    var s := After(workers, queue, before).value;
    if id !in s.jobs {
      StepClients(s, e, id);
      StepDraws(s, e);
      NoEventsBeforeDraw(workers, queue, before, id);
    } else {
      assert JobInv(s.jobs[id]);
      if CallbackEnds(before, id) > 0 {
        CallbackEndsUnstarted(workers, queue, before, id);
      }
      assert JobInv(Step(s, e).value.jobs[id]);
      StepRevoked(s, e, Step(s, e).value, id);
    }
  }

  lemma StepRevoked(s: State, e: Event, t: State, id: JobId)
    requires s.jobs.Keys <= s.drawn
    requires Step(s, e) == Some(t) && id in s.jobs && id in t.jobs && JobInv(s.jobs[id]) && JobInv(t.jobs[id])
    requires e == Event.Callback(id, Post)
             || (s.jobs[id].future.Revoked? && s.jobs[id].worker.Waiting? && s.jobs[id].status.Cancelled?)
    ensures var j := t.jobs[id]; j.future.Revoked? && j.worker.Waiting? && j.status.Cancelled?
  {
    if Own(e, id) {
      OwnStep(s, e, id);
      match e
      case Work(_, _) =>
      case Callback(_, c) => CallbackFreezes(s.jobs[id], c);
    } else {
      StepRecord(s, e, id);
    }
  }

  // ... and such a job never ran a single step of its scan.
  lemma CancelledWhileQueuedNeverRan(workers: nat, queue: nat, events: seq<Event>, id: JobId)
    requires After(workers, queue, events).Some? && id in After(workers, queue, events).value.jobs
    requires CallbackEnds(events, id) > 0
    ensures forall e <- events :: (e.Work? || e.Pick?) ==> e.id != id
    ensures After(workers, queue, events).value.jobs[id].status.Cancelled?
    ensures RunEnds(events, id) == 0
  {
    CallbackEndsUnstarted(workers, queue, events, id);
    NeverStarted(workers, queue, events, id);
    EndsOnce(workers, queue, events, id);
    RunJobs(workers, queue, events);
    assert JobInv(After(workers, queue, events).value.jobs[id]);
  }

  // ---- sharing and slots ---------------------------------------------------------

  // An open, undoomed job is the only one of its key; a submission of that key joins it,
  // and a submission joins nothing else.
  lemma SubmissionsShareTheLiveJob(workers: nat, queue: nat, events: seq<Event>, key: Key, id: JobId,
                                     now: real, a: JobId)
    requires After(workers, queue, events).Some?
    requires var s := After(workers, queue, events).value; !s.closed && id !in s.drawn
    ensures var s := After(workers, queue, events).value;
            && (a in s.jobs && s.jobs[a].key == key && s.jobs[a].Open() && !s.jobs[a].cancelRequested
                ==> Admit(s, key, id, now) == Joined(a))
            && (Admit(s, key, id, now) == Joined(a) ==>
                  a in s.jobs && s.jobs[a].key == key && s.jobs[a].Joinable())
  {
    RunInv(workers, queue, events);
    var s := After(workers, queue, events).value;
    if a in s.jobs {
      assert JobInv(s.jobs[a]);
    }
  }

  function LiveIds(s: State): set<JobId> {
    set id | id in s.jobs && s.jobs[id].status.Live()
  }

  // Free slots plus jobs whose callback has not returned theirs is always the capacity, so
  // the semaphore is never over-released and live jobs never exceed the bound.
  lemma SlotsConserved(workers: nat, queue: nat, events: seq<Event>)
    requires After(workers, queue, events).Some?
    ensures var s := After(workers, queue, events).value;
            && s.free + |Held(s.jobs)| == workers + queue
            && |LiveIds(s)| <= workers + queue - s.free
            && |BusyIds(s.jobs)| <= workers
  {
    RunInv(workers, queue, events);
    CapacityConstant(workers, queue, events);
    var s := After(workers, queue, events).value;
    forall id | id in LiveIds(s)
      ensures id in Held(s.jobs)
    {
      assert JobInv(s.jobs[id]);
    }
    SubsetCard(LiveIds(s), Held(s.jobs));
  }

  lemma {:induction false} CapacityConstant(workers: nat, queue: nat, events: seq<Event>)
    requires After(workers, queue, events).Some?
    ensures After(workers, queue, events).value.capacity == workers + queue
    ensures After(workers, queue, events).value.workers == workers
  {
    if events != [] {
      CapacityConstant(workers, queue, events[..|events| - 1]);
    }
  }

  // A release in any reachable state finds the semaphore below its bound.
  lemma ReleaseIsBalanced(workers: nat, queue: nat, events: seq<Event>, id: JobId)
    requires After(workers, queue, events).Some?
    requires Step(After(workers, queue, events).value, Event.Callback(id, Release)).Some?
    ensures After(workers, queue, events).value.free < workers + queue
  {
    RunInv(workers, queue, events);
    CapacityConstant(workers, queue, events);
    CallbackKeeps(After(workers, queue, events).value, id, Release);
  }
}
