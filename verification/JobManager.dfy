/**
 The job manager as the program has it: job records and a manager object updated in
 place.  Every method of the manager is tied to the step system: its effect is a run
 of JobProtocol from the old state to the new one.
 */
module JobManager {
  import opened Maps
  import opened Sets
  import opened Wrappers
  import opened JobMoves
  import P = JobProtocol
  import I = JobInvariant
  import S = JobShutdown

  class Job {
    const id: P.JobId
    const key: P.Key
    var status: P.Status
    var cancelRequested: bool
    var watchers: set<P.Token>
    var rowsScanned: int
    var result: Option<P.Payload>
    var error: Option<P.Fault>
    var finished: Option<real>
    var event: bool
    var future: P.Future
    var attached: bool
    ghost var worker: P.Worker
    ghost var callback: P.Callback

    ghost function View(): P.Job
      reads this
    {
      P.Job(key, status, cancelRequested, watchers, rowsScanned, result, error, finished,
            event, future, attached, worker, callback)
    }

    constructor (id: P.JobId, key: P.Key, watcher: P.Token)
      ensures this.id == id && this.key == key && View() == P.NewJob(key, watcher)
    {
      this.id, this.key := id, key;
      status, cancelRequested, watchers, rowsScanned := P.Queued, false, {watcher}, 0;
      result, error, finished, event := None, None, None, false;
      future, attached := P.Unsubmitted, false;
      worker, callback := P.Waiting, P.Unarmed;
    }

    // Whatever clients do to the job between two steps of its worker.
    method Interference() returns (ghost calls: seq<Move>)
      modifies `cancelRequested, `watchers
      ensures Moves(old(View()), calls) == Some(View()) && Steps(calls) == []
    {
      NoMoves(View());
      calls := [];
    }

    // Look at the cancel flag, after whatever clients did: when it is set the closure is on
    // its way out, otherwise it goes on.
    method Check(step: P.WorkerEvent) returns (cancelled: bool, ghost trace: seq<Move>)
      requires cancelRequested || watchers != {}
      requires (worker.Marked? && step.PreCheck?) || (worker.Returned? && step.PostCheck?)
      modifies `cancelRequested, `watchers, `worker
      ensures cancelRequested || watchers != {}
      ensures cancelled == cancelRequested && (old(cancelRequested) ==> cancelled)
      ensures Moves(old(View()), trace) == Some(View()) && Steps(trace) == [step]
      ensures worker == if cancelled then P.Failing(P.CANCELLED, P.Cancelled)
                        else if step.PreCheck? then P.Calling else P.Saving(old(worker).value)
    {
      hide Moves, Steps;
      ghost var start := View();
      trace := Interference();
      ClientMoves(start, trace, View());
      cancelled := cancelRequested;
      OneMove(start, trace, View(), Own(step));
      worker := if cancelled then P.Failing(P.CANCELLED, P.Cancelled)
                else if step.PreCheck? then P.Calling else P.Saving(worker.value);
      trace := trace + [Own(step)];
    }

    // One call of the progress callback: it first looks at the cancel flag.
    method Progress(rows: int) returns (cancelled: bool, ghost trace: seq<Move>)
      requires (cancelRequested || watchers != {}) && worker.Calling?
      modifies `cancelRequested, `watchers, `rowsScanned, `worker
      ensures cancelRequested || watchers != {}
      ensures cancelled == cancelRequested && (old(cancelRequested) ==> cancelled)
      ensures Moves(old(View()), trace) == Some(View()) && Steps(trace) == [P.Progress(rows)]
      ensures rowsScanned == if cancelled then old(rowsScanned) else rows
      ensures worker == if cancelled then P.Failing(P.CANCELLED, P.Cancelled) else P.Calling
    {
      hide Moves, Steps;
      ghost var start := View();
      trace := Interference();
      ClientMoves(start, trace, View());
      cancelled := cancelRequested;
      OneMove(start, trace, View(), Own(P.Progress(rows)));
      if cancelled {
        worker := P.Failing(P.CANCELLED, P.Cancelled);
      } else {
        rowsScanned := rows;
      }
      trace := trace + [Own(P.Progress(rows))];
    }

    // The scan's reports, until one of them finds the flag set.
    method Report(reports: seq<int>) returns (cancelled: bool, ghost trace: seq<Move>)
      requires (cancelRequested || watchers != {}) && worker.Calling?
      modifies `cancelRequested, `watchers, `rowsScanned, `worker
      ensures cancelRequested || watchers != {}
      ensures old(cancelRequested) || cancelled ==> cancelRequested
      ensures old(cancelRequested) && reports != [] ==> cancelled && rowsScanned == old(rowsScanned)
      ensures !cancelled ==> rowsScanned == if reports == [] then old(rowsScanned) else reports[|reports| - 1]
      ensures Moves(old(View()), trace) == Some(View())
      ensures Steps(trace) <= Progresses(reports) && (!cancelled ==> Steps(trace) == Progresses(reports))
      ensures worker == if cancelled then P.Failing(P.CANCELLED, P.Cancelled) else P.Calling
    {
      hide Moves, Steps, Progresses;
      NoMoves(View());
      NoProgress(reports);
      cancelled, trace := false, [];
      for i := 0 to |reports|
        invariant cancelRequested || watchers != {}
        invariant old(cancelRequested) ==> cancelRequested && i == 0
        invariant rowsScanned == if i == 0 then old(rowsScanned) else reports[i - 1]
        invariant Moves(old(View()), trace) == Some(View()) && worker.Calling?
        invariant Steps(trace) == Progresses(reports[..i])
      {
        ghost var more;
        ghost var mid := View();
        cancelled, more := Progress(reports[i]);
        JoinMoves(old(View()), trace, mid, more);
        ProgressesNext(reports, i);
        trace := trace + more;
        if cancelled {
          return;
        }
      }
      assert reports[..|reports|] == reports;
    }

    // The scan and the check that follows it.
    method Call(scan: Scan) returns (final: P.Status, fault: Option<P.Fault>, ghost trace: seq<Move>)
      requires (cancelRequested || watchers != {}) && worker.Calling?
      modifies `cancelRequested, `watchers, `rowsScanned, `worker, `result
      ensures cancelRequested || watchers != {}
      ensures Moves(old(View()), trace) == Some(View()) && Scanned(Steps(trace), scan, final)
      ensures match final
              case Done => fault.None? && worker == P.Finishing(P.Done) && result == Some(scan.outcome.value)
              case Failed => fault == Some(scan.outcome.error) && worker == P.Failing(scan.outcome.error, P.Failed)
                             && result == old(result)
              case Cancelled => cancelRequested && fault == Some(P.CANCELLED)
                                && worker == P.Failing(P.CANCELLED, P.Cancelled) && result == old(result)
              case _ => false
      ensures !cancelRequested ==>
        && (scan.outcome.Success? <==> final.Done?)
        && (scan.reports != [] ==> rowsScanned == scan.reports[|scan.reports| - 1])
      ensures old(cancelRequested) && scan.reports != [] ==>
        final.Cancelled? && rowsScanned == old(rowsScanned)
    {
      hide Moves, Steps, MoveStep, Progresses;
      ghost var start := View();
      var cancelled;
      cancelled, trace := Report(scan.reports);
      if cancelled {
        return P.Cancelled, Some(P.CANCELLED), trace;
      }
      ghost var mid := View();
      match scan.outcome {
        case Failure(f) =>
          RaiseMove(mid, f);
          worker := P.Failing(f, P.Failed);
          OneMove(start, trace, mid, Own(P.Raise(f)));
          trace := trace + [Own(P.Raise(f))];
          final, fault := P.Failed, Some(f);
        case Success(v) =>
          ghost var more;
          cancelled, more := Conclude(v);
          JoinMoves(start, trace, mid, more);
          trace := trace + more;
          final, fault := if cancelled then P.Cancelled else P.Done, if cancelled then Some(P.CANCELLED) else None;
      }
    }

    // The scan returned: look at the flag once more, then keep the value.
    method Conclude(v: P.Payload) returns (cancelled: bool, ghost trace: seq<Move>)
      requires (cancelRequested || watchers != {}) && worker.Calling?
      modifies `cancelRequested, `watchers, `worker, `result
      ensures cancelRequested || watchers != {}
      ensures cancelled == cancelRequested
      ensures Moves(old(View()), trace) == Some(View())
      ensures Steps(trace) == [P.Return(v), P.PostCheck] + if cancelled then [] else [P.Save]
      ensures worker == if cancelled then P.Failing(P.CANCELLED, P.Cancelled) else P.Finishing(P.Done)
      ensures result == if cancelled then old(result) else Some(v)
    {
      hide Moves, Steps, MoveStep;
      ghost var start := View();
      NoMoves(start);
      ReturnMove(start, v);
      worker := P.Returned(v);
      OneMove(start, [], start, Own(P.Return(v)));
      ghost var checked;
      ghost var mid := View();
      cancelled, checked := Check(P.PostCheck);
      trace := [] + [Own(P.Return(v))];
      JoinMoves(start, trace, mid, checked);
      trace := trace + checked;
      if !cancelled {
        mid := View();
        SaveMove(mid);
        result := Some(v);
        worker := P.Finishing(P.Done);
        OneMove(start, trace, mid, Own(P.Save));
        trace := trace + [Own(P.Save)];
      }
    }

    // Error, finish time, status, event: in this order.
    method Settle(final: P.Status, fault: Option<P.Fault>, now: real) returns (ghost trace: seq<Move>)
      requires worker == if fault.Some? then P.Failing(fault.value, final) else P.Finishing(final)
      modifies `status, `error, `finished, `event, `worker
      ensures Moves(old(View()), trace) == Some(View()) && Steps(trace) == Ending(fault.Some?, now)
      ensures Steps(trace) == (if fault.Some? then [P.RecordFault] else []) + [P.Stamp(now), P.Publish, P.Signal]
      ensures worker.Exiting? && status == final && event && finished == Some(now)
      ensures error == if fault.Some? then fault else old(error)
    {
      hide Moves, Steps, MoveStep;
      ghost var start := View();
      trace := [];
      NoMoves(start);
      if fault.Some? {
        RecordMove(start);
        OneMove(start, [], start, Own(P.RecordFault));
        error := fault;
        worker := P.Finishing(final);
        trace := [] + [Own(P.RecordFault)];
      }
      EndMoves(start, trace, View(), now);
      finished := Some(now);
      status := final;
      event := true;
      worker := P.Exiting;
      trace := trace + [Own(P.Stamp(now))] + [Own(P.Publish)] + [Own(P.Signal)];
    }

    // The closure the executor runs, with client calls interfering before every read of
    // the cancel flag: a run of the worker's steps up to its exit.
    method Run(scan: Scan, now: real) returns (ghost trace: seq<Move>, ghost body: seq<P.WorkerEvent>)
      requires I.JobInv(View()) && worker.Picked? && attached
      modifies `status, `rowsScanned, `result, `error, `finished, `event, `worker, `cancelRequested, `watchers
      ensures Moves(old(View()), trace) == Some(View()) && worker.Exiting? && I.JobInv(View())
      ensures Steps(trace) == [P.Start, P.PreCheck] + body + Ending(!status.Done?, now)
      ensures Scanned(body, scan, status)
      ensures event && finished == Some(now) && !status.Live()
      ensures Outcome(scan)
      ensures !cancelRequested ==>
        && (scan.outcome.Success? <==> status.Done?)
        && (scan.reports != [] ==> rowsScanned == scan.reports[|scan.reports| - 1])
      ensures old(cancelRequested) ==> status.Cancelled? && body == [] && rowsScanned == old(rowsScanned)
    {
      hide Moves, Steps, MoveStep, Ending, Progresses, I.JobInv;
      ghost var start := View();
      Watched(start);
      var final, fault;
      final, fault, trace, body := Attempt(scan);
      ghost var mid := View();
      ghost var more := Settle(final, fault, now);
      JoinMoves(start, trace, mid, more);
      trace := trace + more;
      MovesKeepJob(start, trace, View());
    }

    // The job shows what the scan returned or raised, or that it was cancelled.
    ghost predicate Outcome(scan: Scan)
      reads this
    {
      && (status.Done? ==> scan.outcome.Success? && result == Some(scan.outcome.value))
      && (status.Failed? ==> scan.outcome.Failure? && error == Some(scan.outcome.error))
      && (status.Cancelled? ==> cancelRequested && error == Some(P.Fault("rollup cancelled", 409)))
      && (!cancelRequested ==> (scan.outcome.Success? <==> status.Done?))
    }

    // What a pool thread does: the future starts, the closure runs, the future is resolved.
    method Perform(scan: Scan, now: real)
      returns (ghost moves: seq<Move>, ghost body: seq<P.WorkerEvent>, ghost k: P.Job)
      requires I.JobInv(Started(View())) && attached
      modifies this
      ensures Moves(Started(old(View())), moves) == Some(k) && k.worker.Exiting? && View() == Vacated(k)
      ensures future.Resolved? && !status.Live() && Scanned(body, scan, status)
      ensures Outcome(scan)
      ensures Steps(moves) == [P.Start, P.PreCheck] + body + Ending(!status.Done?, now)
    {
      hide I.JobInv, Moves, Steps, Scanned, Ending;
      future, worker := P.Executing, P.Picked;
      moves, body := Run(scan, now);
      k := View();
      future, worker := P.Resolved, P.Gone;
      callback := if callback.Armed? then P.Due else callback;
    }

    // The closure up to its outcome: started, and scanned unless the flag was already set.
    method Attempt(scan: Scan)
      returns (final: P.Status, fault: Option<P.Fault>, ghost trace: seq<Move>, ghost body: seq<P.WorkerEvent>)
      requires (cancelRequested || watchers != {}) && worker.Picked?
      modifies `status, `rowsScanned, `result, `worker, `cancelRequested, `watchers
      ensures cancelRequested || watchers != {}
      ensures Moves(old(View()), trace) == Some(View())
      ensures Steps(trace) == [P.Start, P.PreCheck] + body && Scanned(body, scan, final)
      ensures match final
              case Done => fault.None? && worker == P.Finishing(P.Done) && result == Some(scan.outcome.value)
              case Failed => fault == Some(scan.outcome.error) && worker == P.Failing(scan.outcome.error, P.Failed)
              case Cancelled => cancelRequested && fault == Some(P.CANCELLED)
                                && worker == P.Failing(P.CANCELLED, P.Cancelled)
              case _ => false
      ensures !cancelRequested ==>
        && (scan.outcome.Success? <==> final.Done?)
        && (scan.reports != [] ==> rowsScanned == scan.reports[|scan.reports| - 1])
      ensures old(cancelRequested) ==> final.Cancelled? && body == [] && rowsScanned == old(rowsScanned)
    {
      hide Moves, Steps, MoveStep;
      ghost var start := View();
      var cancelled;
      cancelled, trace := Open();
      if cancelled {
        return P.Cancelled, Some(P.CANCELLED), trace, [];
      }
      ghost var more;
      ghost var mid := View();
      final, fault, more := Call(scan);
      JoinMoves(start, trace, mid, more);
      trace, body := trace + more, Steps(more);
    }

    // The done-callback's part: the callback's steps up to its release.  A job revoked while
    // queued ends here, cancelled and never run; any other had ended and is left as it was.
    method End(now: real)
      requires I.JobInv(View()) && callback.Due?
      modifies `error, `finished, `status, `event, `callback
      ensures Chain(old(View()), CallbackSteps(old(View()), now)) == Some(View())
      ensures I.JobInv(View()) && event && !status.Live()
      ensures if old(status.Queued? || status.Running?)
              then status.Cancelled? && worker.Waiting? && future.Revoked?
                   && error == Some(P.Fault("rollup cancelled", 409)) && finished == Some(now) && result == None
              else (status, result, error, finished) == old((status, result, error, finished))
    {
      EndsTheJob(View(), now);
      if attached && future.Revoked? && !event {
        error := Some(P.CANCELLED);
        finished := Some(now);
        status := P.Cancelled;
        event := true;
      }
      callback := P.Released;
    }

    // Running, then the first look at the flag.
    method Open() returns (cancelled: bool, ghost trace: seq<Move>)
      requires (cancelRequested || watchers != {}) && worker.Picked?
      modifies `status, `worker, `cancelRequested, `watchers
      ensures cancelRequested || watchers != {}
      ensures cancelled == cancelRequested && (old(cancelRequested) ==> cancelled)
      ensures Moves(old(View()), trace) == Some(View()) && Steps(trace) == [P.Start, P.PreCheck]
      ensures worker == if cancelled then P.Failing(P.CANCELLED, P.Cancelled) else P.Calling
    {
      hide Moves, Steps, MoveStep;
      ghost var start := View();
      NoMoves(start);
      StartMove(start);
      status, worker := P.Running, P.Marked;
      OneMove(start, [], start, Own(P.Start));
      ghost var mid := View();
      cancelled, trace := Check(P.PreCheck);
      JoinMoves(start, [] + [Own(P.Start)], mid, trace);
      trace := [] + [Own(P.Start)] + trace;
    }
  }

  datatype SubmitResult =
    | Closed
    | QueueFull
    | ExecutorFailed
    | Accepted(job: Job, watcher: P.Token)

  class JobManager {
    const workers: nat
    const capacity: nat
    var jobs: map<P.JobId, Job>
    var byKey: map<P.Key, Job>
    var slots: nat
    var closed: bool
    ghost var all: map<P.JobId, Job>     // every job not rolled back, pruned ones included
    ghost var drawn: set<string>

    ghost function Abs(): P.State
      reads this, all.Values
    {
      P.State(Views(), jobs.Keys, KeyIds(), slots, capacity, workers, closed, {}, None, drawn)
    }

    ghost function Views(): (m: map<P.JobId, P.Job>)
      reads `all, all.Values
    {
      map id | id in all :: all[id].View()
    }

    ghost function KeyIds(): map<P.Key, P.JobId>
      reads `byKey
    {
      IdsOf(byKey)
    }

    static ghost function IdsOf(byKey: map<P.Key, Job>): map<P.Key, P.JobId> {
      map k | k in byKey :: byKey[k].id
    }

    ghost predicate Linked()
      reads `all, `jobs, `byKey
    {
      TableLinked(all, jobs) && KeysLinked(jobs, byKey)
    }

    static ghost predicate TableLinked(all: map<P.JobId, Job>, jobs: map<P.JobId, Job>) {
      && (forall id <- all :: all[id].id == id)
      && (forall id <- jobs :: id in all && jobs[id] == all[id])
    }

    static ghost predicate KeysLinked(jobs: map<P.JobId, Job>, byKey: map<P.Key, Job>) {
      forall k <- byKey :: byKey[k].id in jobs && jobs[byKey[k].id] == byKey[k] && byKey[k].key == k
    }

    ghost predicate Valid()
      reads this, all.Values
    {
      Linked() && I.Inv(Abs())
    }

    constructor (maxWorkers: nat, maxQueue: nat)
      ensures Valid() && fresh(all.Values)
      ensures Abs() == P.Init(maxWorkers, maxQueue)
    {
      workers, capacity := maxWorkers, maxWorkers + maxQueue;
      jobs, byKey, slots, closed := map[], map[], maxWorkers + maxQueue, false;
      all, drawn := map[], {};
      new;
      I.InitInv(maxWorkers, maxQueue);
    }

    // After a change to the fields of one job only.
    twostate lemma OneJob(job: Job)
      requires old(Linked()) && all == old(all) && job.id in all && all[job.id] == job
      requires forall id <- all :: id != job.id ==> all[id].View() == old(all[id].View())
      ensures Views() == old(Views())[job.id := job.View()]
    {
    }

    // Unfinished, or finished at most five minutes ago.
    static ghost predicate Kept(job: Job, now: real)
      reads job
    {
      job.finished.None? || now - job.finished.value <= 300.0
    }

    method PruneLocked(now: real)
      requires Linked()
      modifies `jobs, `byKey
      ensures Linked() && Abs() == P.Prune(old(Abs()), now)
      ensures forall id :: id in jobs <==> id in old(jobs) && Kept(old(jobs)[id], now)
      ensures forall id <- jobs :: jobs[id] == old(jobs)[id]
      ensures forall k :: k in byKey <==> k in old(byKey) && Kept(old(byKey)[k], now)
      ensures forall k <- byKey :: byKey[k] == old(byKey)[k]
    {
      var stale := set id | id in jobs && jobs[id].finished.Some?
                            && now - jobs[id].finished.value > P.RETENTION;
      StaleAgrees(stale, now);
      DropJobs(stale);
      DroppedKeys(old(byKey), stale);
      assert Views() == old(Views());
    }

    static lemma DroppedKeys(byKey: map<P.Key, Job>, stale: set<P.JobId>)
      ensures IdsOf(map k | k in byKey && byKey[k].id !in stale :: byKey[k])
              == map k | k in IdsOf(byKey) && IdsOf(byKey)[k] !in stale :: IdsOf(byKey)[k]
    {
    }

    method DropJobs(stale: set<P.JobId>)
      requires stale <= jobs.Keys && Linked()
      modifies `jobs, `byKey
      ensures Linked()
      ensures jobs == old(jobs) - stale
      ensures byKey == map k | k in old(byKey) && old(byKey)[k].id !in stale :: old(byKey)[k]
    {
      hide TableLinked, KeysLinked;
      var rest := stale;
      while rest != {}
        invariant rest <= stale && rest <= jobs.Keys
        invariant Linked()
        invariant jobs == old(jobs) - (stale - rest)
        invariant byKey == map k | k in old(byKey) && old(byKey)[k].id !in stale - rest :: old(byKey)[k]
      {
        var id :| id in rest;
        DropJob(id);
        rest := rest - {id};
      }
    }

    method DropJob(id: P.JobId)
      requires id in jobs && Linked()
      modifies `jobs, `byKey
      ensures Linked()
      ensures jobs == old(jobs) - {id}
      ensures byKey == map k | k in old(byKey) && old(byKey)[k].id != id :: old(byKey)[k]
    {
      var job := jobs[id];
      if job.key in byKey && byKey[job.key] == job {
        byKey := byKey - {job.key};
      }
      assert forall k <- old(byKey) :: k in byKey <==> old(byKey)[k].id != id;
      jobs := jobs - {id};
    }

    lemma StaleAgrees(stale: set<P.JobId>, now: real)
      requires Linked()
      requires stale == set id | id in jobs && jobs[id].finished.Some?
                                 && now - jobs[id].finished.value > P.RETENTION
      ensures stale == P.Stale(Abs(), now)
    {
      assert forall id <- jobs :: Abs().jobs[id] == jobs[id].View();
    }

    // The job at work that a submission of this key shares: the one its key leads to, unless
    // somebody asked to cancel it.
    ghost function Shared(key: P.Key): Option<Job>
      reads `byKey, byKey.Values
    {
      if key in byKey && (byKey[key].status.Queued? || byKey[key].status.Running?) && !byKey[key].cancelRequested
      then Some(byKey[key]) else None
    }

    ghost function SharedAt(key: P.Key, now: real): Option<Job>
      reads `byKey, byKey.Values
    {
      if Shared(key).Some? && Kept(Shared(key).value, now) then Shared(key) else None
    }

    // A job of its own for this key, handed to the executor.
    ghost predicate IsNew(job: Job, key: P.Key, id: P.JobId, watcher: P.Token)
      reads `byKey, job
    {
      && job.id == id && job.watchers == {watcher} && job.status.Queued? && !job.cancelRequested
      && job.future.Pending? && key in byKey && byKey[key] == job
    }

    // Admission, hand-over to the executor, attaching the future and arming its callback, all
    // under the lock.  `accepted` says whether the executor takes the work.
    method Submit(key: P.Key, id: P.JobId, watcher: P.Token, now: real, accepted: bool)
      returns (r: SubmitResult, ghost trace: seq<P.Event>)
      requires Valid() && id !in drawn && watcher !in drawn && id != watcher
      modifies this, all.Values
      ensures Valid() && fresh(all.Values - old(all.Values))
      ensures trace == SubmitEvents(old(Abs()), key, id, watcher, now, accepted)
      ensures match P.Admit(old(Abs()), key, id, now)
              case Refused => r.Closed?
              case Joined(shared) => r.Accepted? && r.job.id == shared
              case Full => r.QueueFull?
              case Started(_) => if accepted then r.Accepted? && r.job.id == id else r.ExecutorFailed?
      ensures P.Run(old(Abs()), trace) == Some(Abs())
      ensures r.Closed? <==> old(closed)
      ensures !old(closed) ==>
              match old(SharedAt(key, now))
              case Some(existing) =>
                && r == Accepted(existing, watcher) && slots == old(slots)
                && existing.watchers == old(existing.watchers) + {watcher}
              case None =>
                if old(slots) == 0 then r.QueueFull? && slots == 0
                else if !accepted then r.ExecutorFailed? && slots == old(slots)
                else r.Accepted? && IsNew(r.job, key, id, watcher) && fresh(r.job) && slots == old(slots) - 1
      ensures r.Accepted? ==>
        && r.watcher == watcher && watcher in r.job.watchers && r.job.key == key
        && r.job.id in jobs && jobs[r.job.id] == r.job
    {
      ghost var start := Abs();
      if closed {
        r := Closed;
      } else {
        r := SubmitOpen(key, id, watcher, now, accepted);
      }
      trace := SubmitEvents(start, key, id, watcher, now, accepted);
      SubmitRuns(start, key, id, watcher, now, accepted, Abs());
    }

    method SubmitOpen(key: P.Key, id: P.JobId, watcher: P.Token, now: real, accepted: bool)
      returns (r: SubmitResult)
      requires Linked() && all.Keys <= drawn && !closed
      requires id !in drawn && watcher !in drawn && id != watcher
      modifies this, all.Values
      ensures Linked() && fresh(all.Values - old(all.Values))
      ensures Submitted(P.Prune(old(Abs()), now), key, id, watcher, accepted, Abs())
      ensures match P.Choose(P.Prune(old(Abs()), now), key, id)
              case Joined(shared) => r.Accepted? && r.job.id == shared
              case Started(_) => if accepted then r.Accepted? && r.job.id == id else r.ExecutorFailed?
              case _ => r.QueueFull?
      ensures match old(SharedAt(key, now))
              case Some(existing) =>
                && r == Accepted(existing, watcher) && slots == old(slots)
                && existing.watchers == old(existing.watchers) + {watcher}
              case None =>
                if old(slots) == 0 then r.QueueFull? && slots == 0
                else if !accepted then r.ExecutorFailed? && slots == old(slots)
                else r.Accepted? && IsNew(r.job, key, id, watcher) && fresh(r.job) && slots == old(slots) - 1
      ensures r.Accepted? ==>
        && r.watcher == watcher && watcher in r.job.watchers && r.job.key == key
        && r.job.id in jobs && jobs[r.job.id] == r.job
    {
      hide P.Choose, P.Prune, Submitted, KeysLinked, TableLinked, IdsOf;
      ghost var found := SharedAt(key, now);
      PruneLocked(now);
      assert Shared(key) == found;
      hide Shared, SharedAt, Kept;
      r := SubmitPruned(key, id, watcher, accepted);
    }

    method SubmitPruned(key: P.Key, id: P.JobId, watcher: P.Token, accepted: bool) returns (r: SubmitResult)
      requires Linked() && all.Keys <= drawn && id !in drawn
      modifies this, all.Values
      ensures Linked() && fresh(all.Values - old(all.Values))
      ensures Submitted(old(Abs()), key, id, watcher, accepted, Abs())
      ensures match P.Choose(old(Abs()), key, id)
              case Joined(shared) => r.Accepted? && r.job.id == shared
              case Started(_) => if accepted then r.Accepted? && r.job.id == id else r.ExecutorFailed?
              case _ => r.QueueFull?
      ensures match old(Shared(key))
              case Some(existing) =>
                && r == Accepted(existing, watcher) && slots == old(slots)
                && existing.watchers == old(existing.watchers) + {watcher}
              case None =>
                if old(slots) == 0 then r.QueueFull? && slots == 0
                else if !accepted then r.ExecutorFailed? && slots == old(slots)
                else r.Accepted? && IsNew(r.job, key, id, watcher) && fresh(r.job) && slots == old(slots) - 1
      ensures r.Accepted? ==>
        && r.watcher == watcher && watcher in r.job.watchers && r.job.key == key
        && r.job.id in jobs && jobs[r.job.id] == r.job
    {
      hide Begun, P.Choose, KeysLinked, TableLinked;
      SubmissionDecided(key, id);
      if key in byKey && byKey[key].status.Live() && !byKey[key].cancelRequested {
        r := Join(byKey[key], {id, watcher}, watcher);
      } else if slots == 0 {
        drawn := drawn + {id, watcher};
        r := QueueFull;
      } else {
        r := Start(key, id, watcher, accepted);
      }
    }

    // What the manager reads off its tables is what the protocol decides.
    lemma SubmissionDecided(key: P.Key, id: P.JobId)
      requires Linked()
      ensures P.Choose(Abs(), key, id)
              == if key in byKey && byKey[key].status.Live() && !byKey[key].cancelRequested then P.Joined(byKey[key].id)
                 else if slots == 0 then P.Full else P.Started(id)
      ensures key in byKey ==>
        byKey[key].id in jobs && jobs[byKey[key].id] == byKey[key] && byKey[key].key == key
      ensures key in byKey ==> byKey[key].id in all && all[byKey[key].id] == byKey[key]
    {
      assert key in byKey ==> Abs().jobs[byKey[key].id] == byKey[key].View();
    }

    method Join(existing: Job, draw: set<string>, watcher: P.Token) returns (r: SubmitResult)
      requires Linked() && existing.id in jobs && jobs[existing.id] == existing
      modifies `drawn, existing`watchers
      ensures Linked() && r == Accepted(existing, watcher)
      ensures existing.watchers == old(existing.watchers) + {watcher}
      ensures var s := old(Abs());
              Abs() == s.(drawn := s.drawn + draw, jobs := s.jobs[existing.id :=
                s.jobs[existing.id].(watchers := s.jobs[existing.id].watchers + {watcher})])
    {
      assert old(Abs()).jobs[existing.id] == old(existing.View());
      drawn := drawn + draw;
      existing.watchers := existing.watchers + {watcher};
      OneJob(existing);
      r := Accepted(existing, watcher);
    }

    // A new job is entered in the tables and handed to the executor ...
    method Enter(key: P.Key, id: P.JobId, watcher: P.Token) returns (job: Job)
      requires slots > 0
      modifies `drawn, `slots, `jobs, `byKey
      ensures fresh(job) && job.id == id && job.View() == P.NewJob(key, watcher)
      ensures drawn == old(drawn) + {id, watcher} && slots == old(slots) - 1
      ensures jobs == old(jobs)[id := job] && byKey == old(byKey)[key := job]
    {
      drawn := drawn + {id, watcher};
      slots := slots - 1;
      job := new Job(id, key, watcher);
      jobs, byKey := jobs[id := job], byKey[key := job];
    }

    // ... which takes it: its future is attached and its callback armed ...
    method Launch(job: Job)
      modifies `all, job
      ensures all == old(all)[job.id := job]
      ensures job.View() == old(job.View()).(future := P.Pending, attached := true, callback := P.Armed)
    {
      all := all[job.id := job];
      job.future := P.Pending;
      job.attached := true;
      job.callback := P.Armed;
    }

    lemma LaunchedIsNew(job: Job, watcher: P.Token)
      requires job.View() == Queued(job.key, watcher) && job.key in byKey && byKey[job.key] == job
      ensures IsNew(job, job.key, job.id, watcher)
    {
    }

    // ... or refuses, and the job is taken out again and its slot given back.
    method Withdraw(job: Job)
      modifies `slots, `jobs, `byKey
      ensures slots == old(slots) + 1
      ensures jobs == old(jobs) - {job.id} && byKey == old(byKey) - {job.key}
    {
      jobs, byKey, slots := jobs - {job.id}, byKey - {job.key}, slots + 1;
    }

    method Start(key: P.Key, id: P.JobId, watcher: P.Token, accepted: bool) returns (r: SubmitResult)
      requires Linked() && slots > 0 && id !in all
      modifies this
      ensures Linked() && fresh(all.Values - old(all.Values))
      ensures if accepted then r.Accepted? && r.watcher == watcher && r.job.id == id && r.job.key == key
                               && watcher in r.job.watchers && id in jobs && jobs[id] == r.job
              else r == ExecutorFailed && slots == old(slots)
      ensures accepted ==> fresh(r.job) && IsNew(r.job, key, id, watcher) && slots == old(slots) - 1
      ensures Abs() == Begun(old(Abs()), key, id, watcher, accepted)
    {
      hide Begun, KeysLinked, TableLinked, IdsOf;
      if accepted {
        var job := StartAccepted(key, id, watcher);
        r := Accepted(job, watcher);
      } else {
        StartRejected(key, id, watcher);
        r := ExecutorFailed;
      }
    }

    method StartAccepted(key: P.Key, id: P.JobId, watcher: P.Token) returns (job: Job)
      requires Linked() && slots > 0 && id !in all
      modifies this
      ensures Linked() && fresh(all.Values - old(all.Values))
      ensures fresh(job) && job.id == id && job.key == key && id in jobs && jobs[id] == job
      ensures IsNew(job, key, id, watcher) && slots == old(slots) - 1
      ensures Abs() == Begun(old(Abs()), key, id, watcher, true)
    {
      hide KeysLinked, TableLinked, IdsOf, IsNew;
      job := Enter(key, id, watcher);
      assert job.key == job.View().key;
      EnteredTable(all, old(jobs), job);
      EnteredKeys(old(jobs), old(byKey), job);
      Launch(job);
      LaunchedIsNew(job, watcher);
      Grown(job);
    }

    method StartRejected(key: P.Key, id: P.JobId, watcher: P.Token)
      requires Linked() && slots > 0 && id !in all
      modifies this
      ensures Linked() && all == old(all) && slots == old(slots)
      ensures Abs() == Begun(old(Abs()), key, id, watcher, false)
    {
      hide KeysLinked, IdsOf;
      var job := Enter(key, id, watcher);
      assert job.key == job.View().key;
      Withdraw(job);
      WithdrawnKeys(old(jobs), old(byKey), job);
    }

    static ghost function Begun(s: P.State, key: P.Key, id: P.JobId, token: P.Token, accepted: bool): P.State
      requires s.free > 0
    {
      var d := s.(drawn := s.drawn + {id, token});
      if accepted
      then d.(table := d.table + {id}, byKey := d.byKey[key := id], free := d.free - 1,
              jobs := d.jobs[id := Queued(key, token)])
      else d.(byKey := d.byKey - {key})
    }

    static lemma EnteredTable(all: map<P.JobId, Job>, jobs: map<P.JobId, Job>, job: Job)
      requires TableLinked(all, jobs)
      ensures TableLinked(all[job.id := job], jobs[job.id := job]) && jobs.Keys <= all.Keys
    {
    }

    static lemma EnteredKeys(jobs: map<P.JobId, Job>, byKey: map<P.Key, Job>, job: Job)
      requires KeysLinked(jobs, byKey) && job.id !in jobs
      ensures KeysLinked(jobs[job.id := job], byKey[job.key := job])
      ensures IdsOf(byKey[job.key := job]) == IdsOf(byKey)[job.key := job.id]
    {
    }

    static lemma WithdrawnKeys(jobs: map<P.JobId, Job>, byKey: map<P.Key, Job>, job: Job)
      requires KeysLinked(jobs, byKey) && job.id !in jobs
      ensures jobs[job.id := job] - {job.id} == jobs
      ensures byKey[job.key := job] - {job.key} == byKey - {job.key}
      ensures KeysLinked(jobs, byKey - {job.key})
      ensures IdsOf(byKey - {job.key}) == IdsOf(byKey) - {job.key}
    {
    }

    // One job was added and no other was touched.
    twostate lemma Grown(new job: Job)
      requires all == old(all)[job.id := job] && job.id !in old(all)
      requires forall id <- old(all) :: unchanged(old(all)[id])
      ensures Views() == old(Views())[job.id := job.View()]
    {
      assert forall id <- old(all) :: all[id].View() == old(all[id].View());
    }

    method Get(id: P.JobId, now: real) returns (job: Job?)
      requires Valid()
      modifies `jobs, `byKey
      ensures Valid() && Abs() == P.Prune(old(Abs()), now)
      ensures job != null <==> id in old(jobs) && Kept(old(jobs)[id], now)
      ensures job != null ==> job == old(jobs)[id]
    {
      ghost var start := Abs();
      PruneLocked(now);
      I.PruneKeeps(start, now);
      job := if id in jobs then jobs[id] else null;
    }

    // What a cancel call leaves of a job.  At work, it loses the watcher; with none left, or by
    // force, it is flagged and a future still queued is revoked.  Ended, it stays as it was.
    static ghost predicate Detached(j: P.Job, watcher: Option<P.Token>, k: P.Job) {
      if !j.status.Queued? && !j.status.Running? then k == j
      else
        var left := if watcher.Some? then j.watchers - {watcher.value} else j.watchers;
        var doomed := watcher.None? || left == {};
        && k.watchers == left && k.cancelRequested == (j.cancelRequested || doomed)
        && k.future == (if doomed && j.future.Pending? then P.Revoked else j.future)
        && (k.status, k.result, k.error, k.finished, k.event) == (j.status, j.result, j.error, j.finished, j.event)
    }

    // Detach a watcher; when none is left, doom the job and cancel its future.
    method Cancel(id: P.JobId, watcher: Option<P.Token>) returns (job: Job?, ghost trace: seq<P.Event>)
      requires Valid()
      modifies all.Values
      ensures Valid()
      ensures job != null <==> id in jobs
      ensures job != null ==> job == jobs[id]
      ensures trace == [P.Cancel(id, watcher)] || trace == [P.Cancel(id, watcher), P.Revoke(id)]
      ensures P.Run(old(Abs()), trace) == Some(Abs())
      ensures |trace| == 2 <==>
        id in jobs && old(id in jobs && jobs[id].status.Live())
        && (watcher.None? || jobs[id].watchers == {})
      ensures |trace| == 2 ==> jobs[id].cancelRequested && !jobs[id].future.Pending?
      ensures Views().Keys == old(Views()).Keys && jobs.Keys <= Views().Keys
      ensures id in jobs ==> Detached(old(Views())[id], watcher, Views()[id])
      ensures forall other <- Views() :: other != id ==> Views()[other] == old(Views())[other]
    {
      hide I.Inv, P.Run, CancelEffect, Detached, KeysLinked, IdsOf;
      ghost var start := Abs();
      AllAttached();
      ghost var doomed;
      job, doomed := CancelLinked(id, watcher);
      trace := if doomed then [P.Cancel(id, watcher), P.Revoke(id)] else [P.Cancel(id, watcher)];
      CancelRuns(start, id, watcher, doomed, Abs());
      EffectDetaches(start, id, watcher, doomed);
    }

    lemma AllAttached()
      requires Valid()
      ensures forall id <- jobs :: jobs[id].attached
    {
      assert I.LockInv(Abs());
      assert forall id <- jobs :: Abs().jobs[id] == jobs[id].View();
    }

    method CancelLinked(id: P.JobId, watcher: Option<P.Token>) returns (job: Job?, ghost doomed: bool)
      requires Linked() && (id in jobs ==> jobs[id].attached)
      modifies all.Values
      ensures Linked()
      ensures job != null <==> id in jobs
      ensures job != null ==> job == jobs[id]
      ensures Abs() == CancelEffect(old(Abs()), id, watcher, doomed)
      ensures doomed <==>
        id in jobs && old(id in jobs && jobs[id].status.Live())
        && (watcher.None? || jobs[id].watchers == {})
      ensures doomed <==> P.Reaches(old(Abs()), id) && P.Emptied(old(Abs()).jobs[id], watcher)
      ensures doomed ==> jobs[id].cancelRequested && !jobs[id].future.Pending?
    {
      hide KeysLinked, IdsOf, P.RevokeFuture;
      ghost var start := Abs();
      doomed := false;
      if id !in jobs {
        return null, doomed;
      }
      job := jobs[id];
      assert start.jobs[id] == job.View();
      if !job.status.Live() {
        return;
      }
      var watched := Leave(job, watcher);
      if watched {
        return;
      }
      ghost var left := job.View();
      assert P.Detach(start.jobs[id], watcher) == left.(cancelRequested := true);
      doomed := true;
      Doom(job);
      SetTwice(start.jobs, id, left, job.View());
    }

    // Take one watcher off a job; whether it is still watched by others.
    method Leave(job: Job, watcher: Option<P.Token>) returns (watched: bool)
      requires Linked() && job.id in all && all[job.id] == job
      modifies job`watchers
      ensures watched <==> watcher.Some? && job.watchers != {}
      ensures job.View() == old(job.View()).(watchers := if watcher.None? then old(job.watchers)
                                                         else old(job.watchers) - {watcher.value})
      ensures Views() == old(Views())[job.id := job.View()]
    {
      if watcher.Some? {
        job.watchers := job.watchers - {watcher.value};
      }
      OneJob(job);
      watched := watcher.Some? && job.watchers != {};
    }

    // Set the cancel flag, then try to cancel the future.
    method Doom(job: Job)
      requires Linked() && job.id in jobs && jobs[job.id] == job && job.id in all
      modifies job
      ensures Linked() && job.cancelRequested && !job.future.Pending?
      ensures job.attached == old(job.attached) && job.status == old(job.status) && job.watchers == old(job.watchers)
      ensures job.View() == P.RevokeFuture(old(job.View()).(cancelRequested := true))
      ensures Views() == old(Views())[job.id := job.View()]
      ensures old(Views())[job.id] == old(job.View())
    {
      job.cancelRequested := true;
      if job.future.Pending? {
        job.future, job.callback := P.Revoked, P.Notify(job.View());
      }
      OneJob(job);
    }

    // Refuse new work, then force-cancel whatever is active.
    method Close() returns (ghost trace: seq<P.Event>)
      requires Valid()
      modifies this, all.Values
      ensures Valid() && S.Draining(Abs())
      ensures trace != [] && trace[0] == P.BeginClose
      ensures forall e <- trace[1..] :: e.CloseNext? || e.Revoke?
      ensures P.Run(old(Abs()), trace) == Some(Abs())
      ensures closed && jobs == old(jobs)
      ensures forall id <- jobs :: Detached(old(jobs[id].View()), None, jobs[id].View())
    {
      ghost var start := Abs();
      AllAttached();
      ghost var order := CloseLinked();
      forall id <- jobs
        ensures Detached(old(jobs[id].View()), None, jobs[id].View())
      {
        assert start.jobs[id] == old(jobs[id].View()) && Abs().jobs[id] == jobs[id].View();
        DoomedIsDetached(start, order, id);
      }
      trace := CloseRuns(start, order, Abs());
    }

    method CloseLinked() returns (ghost order: seq<P.JobId>)
      requires Linked() && forall id <- jobs :: jobs[id].attached
      modifies this, all.Values
      ensures Linked() && closed && jobs == old(jobs) && all == old(all)
      ensures Unique(order) && forall id :: id in order <==> id in P.Active(old(Abs()))
      ensures Abs() == old(Abs()).(closed := true, jobs := DoomAll(old(Abs()).jobs, order))
    {
      closed := true;
      assert Views() == old(Views());
      var active := set id | id in jobs && jobs[id].status.Live();
      ActiveAgrees(active);
      order := DoomEach(active);
    }

    twostate lemma ActiveAgrees(active: set<P.JobId>)
      requires old(Linked()) && active == set id | id in old(jobs) && old(jobs[id].status.Live())
      ensures active == P.Active(old(Abs()))
    {
      assert forall id <- old(jobs) :: old(Abs()).jobs[id] == old(jobs[id].View());
    }

    method DoomEach(active: set<P.JobId>) returns (ghost order: seq<P.JobId>)
      requires Linked() && active <= jobs.Keys
      modifies all.Values
      ensures Linked()
      ensures Unique(order) && forall id :: id in order <==> id in active
      ensures Views() == DoomAll(old(Views()), order)
    {
      hide KeysLinked, P.RevokeFuture;
      var rest := active;
      order := [];
      while rest != {}
        invariant Linked() && rest <= active
        invariant Unique(order) && forall id :: id in order <==> id in active - rest
        invariant Views() == DoomAll(old(Views()), order)
      {
        var id :| id in rest;
        Doom(jobs[id]);
        rest := rest - {id};
        UniqueSnoc(order, id);
        assert (order + [id])[..|order|] == order;
        order := order + [id];
      }
    }

    // A pool thread picks a queued job up, runs its closure and resolves its future.  Whatever
    // clients do meanwhile, this is a run of the worker's steps and of those clients' calls.
    method Execute(job: Job, scan: Scan, now: real)
      returns (ghost moves: seq<Move>, ghost body: seq<P.WorkerEvent>, ghost trace: seq<P.Event>)
      requires Valid() && job.id in all && all[job.id] == job
      requires job.future.Pending? && |P.BusyIds(Views())| < workers
      modifies `drawn, job
      ensures job.future.Resolved? && !job.status.Live() && Scanned(body, scan, job.status)
      ensures job.Outcome(scan)
      ensures Steps(moves) == [P.Start, P.PreCheck] + body + Ending(!job.status.Done?, now)
      ensures Admissible(old(Abs()), moves) ==>
        && Valid() && P.Run(old(Abs()), [P.Pick(job.id)] + trace) == Some(Abs())
        && Stretch(trace, job.id) && WorkSteps(trace, job.id) == Steps(moves) + [P.Resolve]
    {
      hide I.Inv, I.JobInv, P.Run, Moves, Steps, Scanned, Ending, Admissible, Stretch, WorkSteps, Started, Vacated,
           Views, KeyIds, Linked;
      ghost var start := Abs();
      PickReady(job);
      ghost var k;
      moves, body, k := RunPicked(job, scan, now);
      trace := [];
      if Admissible(start, moves) {
        ghost var t;
        trace, t := ClosureLifts(start, job.id, moves, k);
        drawn := t.drawn;
        assert Abs() == t;
      }
    }

    method RunPicked(job: Job, scan: Scan, now: real)
      returns (ghost moves: seq<Move>, ghost body: seq<P.WorkerEvent>, ghost k: P.Job)
      requires Linked() && job.id in all && all[job.id] == job
      requires I.JobInv(Started(job.View())) && job.attached
      modifies job
      ensures Linked() && Abs() == old(Abs()).(jobs := old(Abs()).jobs[job.id := Vacated(k)])
      ensures Moves(Started(old(job.View())), moves) == Some(k) && k.worker.Exiting?
      ensures job.future.Resolved? && !job.status.Live() && Scanned(body, scan, job.status)
      ensures job.Outcome(scan)
      ensures Steps(moves) == [P.Start, P.PreCheck] + body + Ending(!job.status.Done?, now)
    {
      hide I.JobInv, Moves, Steps, Scanned, Ending, Started, Vacated, KeysLinked, IdsOf;
      moves, body, k := job.Perform(scan, now);
      OneJob(job);
    }

    lemma PickReady(job: Job)
      requires Valid() && job.id in all && all[job.id] == job && job.future.Pending?
      ensures I.Inv(Abs()) && Abs().submitting.None? && job.id in Abs().jobs && Abs().jobs[job.id] == job.View()
      ensures I.JobInv(Started(job.View())) && job.attached
    {
      assert Abs().jobs[job.id] == job.View();
      PendingReady(Abs(), job.id);
    }

    // The done-callback: end a job cancelled while queued, then return the slot.
    method FutureDone(job: Job, now: real) returns (ghost trace: seq<P.Event>)
      requires Valid() && job.id in all && all[job.id] == job && job.callback.Due?
      modifies `slots, job
      ensures Valid() && slots == old(slots) + 1 && slots <= capacity
      ensures trace == Labelled(job.id, CallbackSteps(old(job.View()), now))
      ensures P.Run(old(Abs()), trace) == Some(Abs())
      ensures if old(job.status.Queued? || job.status.Running?)
              then job.status.Cancelled? && job.error == Some(P.Fault("rollup cancelled", 409))
                   && job.finished == Some(now)
              else (job.status, job.result, job.error, job.finished)
                   == old((job.status, job.result, job.error, job.finished))
    {
      hide I.Inv, P.Run, Labelled, CallbackSteps, Ended;
      ghost var start, i := Abs(), job.View();
      DueReady(job);
      EndJob(job, now);
      trace := Labelled(job.id, CallbackSteps(i, now));
      FutureRuns(start, job.id, i, now, Abs());
    }

    lemma DueReady(job: Job)
      requires Valid() && job.id in all && all[job.id] == job && job.callback.Due?
      ensures slots < capacity && I.JobInv(job.View())
      ensures job.future.Revoked? ==> job.attached && !job.event
      ensures job.id in Abs().jobs && Abs().jobs[job.id] == job.View()
    {
      assert Abs().jobs[job.id] == job.View();
      DueFacts(Abs(), job.id);
    }

    method EndJob(job: Job, now: real)
      requires Linked() && job.id in all && all[job.id] == job && job.callback.Due?
      requires I.JobInv(job.View())
      modifies `slots, job
      ensures Linked() && slots == old(slots) + 1
      ensures Abs() == old(Abs()).(free := old(slots) + 1,
                         jobs := old(Abs()).jobs[job.id := Ended(old(job.View()), now)])
      ensures if old(job.status.Queued? || job.status.Running?)
              then job.status.Cancelled? && job.error == Some(P.Fault("rollup cancelled", 409))
                   && job.finished == Some(now)
              else (job.status, job.result, job.error, job.finished)
                   == old((job.status, job.result, job.error, job.finished))
    {
      hide KeysLinked, IdsOf, Ended, I.JobInv, Chain, CallbackSteps;
      slots := slots + 1;
      EndsTheJob(job.View(), now);
      job.End(now);
      OneJob(job);
    }
  }

  lemma PendingReady(s: P.State, id: P.JobId)
    requires I.Inv(s) && s.submitting.None? && id in s.jobs && s.jobs[id].future.Pending?
    ensures I.JobInv(Started(s.jobs[id])) && s.jobs[id].attached
  {
    I.PickKeepsJob(s.jobs[id]);
  }

  // ---- the runs that the methods above amount to ------------------------------------

  lemma RunOne(s: P.State, e: P.Event)
    ensures P.Run(s, [e]) == P.Step(s, e)
  {
    assert [e][..0] == [];
    assert P.Run(s, []) == Some(s);
  }

  lemma RunSnoc(s: P.State, events: seq<P.Event>, mid: P.State, e: P.Event)
    requires P.Run(s, events) == Some(mid)
    ensures P.Run(s, events + [e]) == P.Step(mid, e)
  {
    assert (events + [e])[..|events + [e]| - 1] == events;
  }

  lemma RunTwo(s: P.State, e: P.Event, mid: P.State, f: P.Event)
    requires P.Step(s, e) == Some(mid)
    ensures P.Run(s, [e, f]) == P.Step(mid, f)
  {
    RunOne(s, e);
    RunSnoc(s, [e], mid, f);
    assert [e] + [f] == [e, f];
  }

  lemma {:induction false} KeepsInv(s: P.State, events: seq<P.Event>, t: P.State)
    requires I.Inv(s) && P.Run(s, events) == Some(t)
    ensures I.Inv(t)
  {
    if events != [] {
      var mid := P.Run(s, events[..|events| - 1]).value;
      KeepsInv(s, events[..|events| - 1], mid);
      I.StepInv(mid, events[|events| - 1]);
    }
  }

  // The state a submission leaves behind, in closed form.
  ghost predicate Submitted(p: P.State, key: P.Key, id: P.JobId, token: P.Token, accepted: bool, t: P.State)
  {
    var d := p.(drawn := p.drawn + {id, token});
    match P.Choose(p, key, id)
    case Joined(shared) =>
      shared in d.jobs &&
      t == d.(jobs := d.jobs[shared := d.jobs[shared].(watchers := d.jobs[shared].watchers + {token})])
    case Started(_) => p.free > 0 && t == JobManager.Begun(p, key, id, token, accepted)
    case _ => t == d
  }

  ghost function SubmitEvents(s: P.State, key: P.Key, id: P.JobId, token: P.Token, now: real, accepted: bool)
    : seq<P.Event>
  {
    [P.Submit(key, id, token, now)]
    + (match P.Admit(s, key, id, now)
       case Started(_) => if accepted then [P.Enqueue(true), P.Attach, P.Arm] else [P.Enqueue(false)]
       case _ => [])
  }

  lemma SubmitRuns(s: P.State, key: P.Key, id: P.JobId, token: P.Token, now: real, accepted: bool, t: P.State)
    requires I.Inv(s) && CanDraw(s, id, token)
    requires if s.closed then t == s else Submitted(P.Prune(s, now), key, id, token, accepted, t)
    ensures I.Inv(t) && P.Run(s, SubmitEvents(s, key, id, token, now, accepted)) == Some(t)
  {
    var e := P.Submit(key, id, token, now);
    if P.Admit(s, key, id, now).Started? {
      StartRuns(s, key, id, token, now, accepted, t);
    } else {
      RunOne(s, e);
      SubmitsOnce(s, key, id, token, now, t);
      I.SubmitKeeps(s, key, id, token, now);
      assert [e] + [] == [e];
    }
  }

  lemma SubmitsOnce(s: P.State, key: P.Key, id: P.JobId, token: P.Token, now: real, t: P.State)
    requires CanDraw(s, id, token) && !P.Admit(s, key, id, now).Started?
    requires if s.closed then t == s else Submitted(P.Prune(s, now), key, id, token, true, t)
    ensures P.SubmitStep(s, key, id, token, now) == Some(t)
  {
  }

  lemma StartRuns(s: P.State, key: P.Key, id: P.JobId, token: P.Token, now: real, accepted: bool, t: P.State)
    requires I.Inv(s) && CanDraw(s, id, token) && P.Admit(s, key, id, now).Started?
    requires Submitted(P.Prune(s, now), key, id, token, accepted, t)
    ensures I.Inv(t)
    ensures P.Run(s, [P.Submit(key, id, token, now)]
                     + if accepted then [P.Enqueue(true), P.Attach, P.Arm] else [P.Enqueue(false)]) == Some(t)
  {
    assert s.jobs.Keys <= s.drawn && s.table <= s.drawn by { assert I.TableInv(s); }
    var e := P.Submit(key, id, token, now);
    if accepted {
      StartRun(s, key, id, token, now);
      KeepsInv(s, [e] + [P.Enqueue(true), P.Attach, P.Arm], t);
    } else {
      RejectRun(s, key, id, token, now);
      assert [e] + [P.Enqueue(false)] == [e, P.Enqueue(false)];
      KeepsInv(s, [e, P.Enqueue(false)], t);
    }
  }

  ghost function CancelEffect(s: P.State, id: P.JobId, watcher: Option<P.Token>, doomed: bool): P.State {
    if !P.Reaches(s, id) then s
    else var j := P.Detach(s.jobs[id], watcher);
         s.(jobs := s.jobs[id := if doomed then P.RevokeFuture(j) else j])
  }

  lemma EffectDetaches(s: P.State, id: P.JobId, watcher: Option<P.Token>, doomed: bool)
    requires s.table <= s.jobs.Keys
    requires doomed <==> P.Reaches(s, id) && P.Emptied(s.jobs[id], watcher)
    ensures var t := CancelEffect(s, id, watcher, doomed);
            && t.jobs.Keys == s.jobs.Keys
            && (id in s.table ==> JobManager.Detached(s.jobs[id], watcher, t.jobs[id]))
            && forall other <- s.jobs :: other != id ==> t.jobs[other] == s.jobs[other]
  {
  }

  lemma CancelRuns(s: P.State, id: P.JobId, watcher: Option<P.Token>, doomed: bool, t: P.State)
    requires I.Inv(s) && s.submitting.None? && t == CancelEffect(s, id, watcher, doomed)
    requires doomed <==> P.Reaches(s, id) && P.Emptied(s.jobs[id], watcher)
    ensures I.Inv(t)
    ensures P.Run(s, if doomed then [P.Cancel(id, watcher), P.Revoke(id)] else [P.Cancel(id, watcher)]) == Some(t)
  {
    if doomed {
      assert I.LockInv(s);
      CancelRun(s, id, watcher);
      KeepsInv(s, [P.Cancel(id, watcher), P.Revoke(id)], t);
    } else {
      RunOne(s, P.Cancel(id, watcher));
      KeepsInv(s, [P.Cancel(id, watcher)], t);
    }
  }

  ghost function DoomAll(jobs: map<P.JobId, P.Job>, ids: seq<P.JobId>): (r: map<P.JobId, P.Job>)
    ensures r.Keys >= jobs.Keys
  {
    if ids == [] then jobs else
    var id := ids[|ids| - 1];
    var r := DoomAll(jobs, ids[..|ids| - 1]);
    if id in r then r[id := P.RevokeFuture(r[id].(cancelRequested := true))] else r
  }

  lemma {:induction false} DoomAllOthers(jobs: map<P.JobId, P.Job>, ids: seq<P.JobId>, id: P.JobId)
    requires id in jobs && id !in ids
    ensures DoomAll(jobs, ids)[id] == jobs[id]
  {
    if ids != [] {
      DoomAllOthers(jobs, ids[..|ids| - 1], id);
    }
  }

  lemma {:induction false} DoomAllOne(jobs: map<P.JobId, P.Job>, ids: seq<P.JobId>, id: P.JobId)
    requires Unique(ids) && id in jobs && id in ids
    ensures DoomAll(jobs, ids)[id] == P.RevokeFuture(jobs[id].(cancelRequested := true))
  {
    var rest, last := ids[..|ids| - 1], ids[|ids| - 1];
    if last == id {
      DoomAllOthers(jobs, rest, id);
    } else {
      assert ids == rest + [last];
      DoomAllOne(jobs, rest, id);
    }
  }

  lemma DoomedIsDetached(s: P.State, order: seq<P.JobId>, id: P.JobId)
    requires id in s.table && id in s.jobs && Unique(order) && forall other :: other in order <==> other in P.Active(s)
    ensures JobManager.Detached(s.jobs[id], None, DoomAll(s.jobs, order)[id])
  {
    if id in order {
      DoomAllOne(s.jobs, order, id);
    } else {
      DoomAllOthers(s.jobs, order, id);
    }
  }

  ghost function Left(order: seq<P.JobId>, n: nat): set<P.JobId>
    requires n <= |order|
  {
    set id | id in order[n..]
  }

  lemma CloseRuns(s: P.State, order: seq<P.JobId>, t: P.State) returns (trace: seq<P.Event>)
    requires I.Inv(s) && s.submitting.None? && s.todo == {}
    requires Unique(order) && forall id :: id in order <==> id in P.Active(s)
    requires t == s.(closed := true, jobs := DoomAll(s.jobs, order))
    ensures I.Inv(t) && S.Draining(t)
    ensures trace != [] && trace[0] == P.BeginClose
    ensures forall e <- trace[1..] :: e.CloseNext? || e.Revoke?
    ensures P.Run(s, trace) == Some(t)
  {
    trace := CloseRunsPart(s, order, |order|);
    assert order[..|order|] == order;
    assert Left(order, |order|) == {};
    KeepsInv(s, trace, t);
  }

  lemma {:induction false} CloseRunsPart(s: P.State, order: seq<P.JobId>, n: nat) returns (trace: seq<P.Event>)
    requires I.Inv(s) && s.submitting.None? && s.todo == {}
    requires n <= |order| && Unique(order) && forall id :: id in order <==> id in P.Active(s)
    ensures trace != [] && trace[0] == P.BeginClose
    ensures forall e <- trace[1..] :: e.CloseNext? || e.Revoke?
    ensures P.Run(s, trace) == Some(s.(closed := true, todo := Left(order, n),
                                      jobs := DoomAll(s.jobs, order[..n])))
  {
    hide I.Inv, P.Step, P.Run, P.Active, DoomAll, Left;
    if n == 0 {
      trace := [P.BeginClose];
      CloseBegins(s, order);
    } else {
      var before := CloseRunsPart(s, order, n - 1);
      trace := before + [P.CloseNext(order[n - 1]), P.Revoke(order[n - 1])];
      CloseGoesOn(s, order, n, before);
      assert trace[1..] == before[1..] + [P.CloseNext(order[n - 1]), P.Revoke(order[n - 1])];
    }
  }

  lemma CloseBegins(s: P.State, order: seq<P.JobId>)
    requires s.submitting.None? && s.todo == {} && forall id :: id in order <==> id in P.Active(s)
    ensures P.Run(s, [P.BeginClose]) == Some(s.(closed := true, todo := Left(order, 0),
                                               jobs := DoomAll(s.jobs, order[..0])))
  {
    RunOne(s, P.BeginClose);
    assert Left(order, 0) == s.todo + P.Active(s);
  }

  lemma CloseGoesOn(s: P.State, order: seq<P.JobId>, n: nat, before: seq<P.Event>)
    requires I.Inv(s) && s.submitting.None?
    requires 0 < n <= |order| && Unique(order) && order[n - 1] in P.Active(s)
    requires P.Run(s, before) == Some(s.(closed := true, todo := Left(order, n - 1),
                                         jobs := DoomAll(s.jobs, order[..n - 1])))
    ensures P.Run(s, before + [P.CloseNext(order[n - 1]), P.Revoke(order[n - 1])])
            == Some(s.(closed := true, todo := Left(order, n), jobs := DoomAll(s.jobs, order[..n])))
  {
    hide I.Inv, P.Step, P.Run, DoomAll, Left;
    var mid := s.(closed := true, todo := Left(order, n - 1), jobs := DoomAll(s.jobs, order[..n - 1]));
    ActiveAttached(s, order[n - 1]);
    DoomAllNext(s.jobs, order, n);
    LeftNext(order, n);
    CloseNextRun(s, before, mid, order[n - 1]);
  }

  lemma ActiveAttached(s: P.State, id: P.JobId)
    requires I.Inv(s) && s.submitting.None? && id in P.Active(s)
    ensures id in s.jobs && P.Reaches(s, id) && s.jobs[id].attached
  {
    assert I.LockInv(s);
  }

  lemma DoomAllNext(jobs: map<P.JobId, P.Job>, order: seq<P.JobId>, n: nat)
    requires 0 < n <= |order| && Unique(order) && order[n - 1] in jobs
    ensures var id, done := order[n - 1], DoomAll(jobs, order[..n - 1]);
            && id in done && done[id] == jobs[id]
            && DoomAll(jobs, order[..n]) == done[id := P.RevokeFuture(P.Detach(jobs[id], None))]
  {
    DoomAllOthers(jobs, order[..n - 1], order[n - 1]);
    assert order[..n][..n - 1] == order[..n - 1] && order[..n][n - 1] == order[n - 1];
  }

  lemma LeftNext(order: seq<P.JobId>, n: nat)
    requires 0 < n <= |order| && Unique(order)
    ensures order[n - 1] in Left(order, n - 1) && Left(order, n - 1) - {order[n - 1]} == Left(order, n)
  {
    assert order[n - 1..] == [order[n - 1]] + order[n..];
  }

  // A job as a successful submission leaves it.
  ghost function Queued(key: P.Key, token: P.Token): P.Job {
    P.NewJob(key, token).(future := P.Pending, attached := true, callback := P.Armed)
  }

  predicate CanDraw(s: P.State, id: P.JobId, token: P.Token) {
    s.submitting.None? && id !in s.drawn && token !in s.drawn && id != token
  }

  predicate Starts(s: P.State, key: P.Key, id: P.JobId, token: P.Token, now: real) {
    CanDraw(s, id, token) && P.Admit(s, key, id, now).Started? && s.free > 0
  }

  ghost function Opened(s: P.State, key: P.Key, id: P.JobId, token: P.Token, now: real): P.State
    requires s.free > 0
  {
    var p := P.Prune(s, now);
    p.(drawn := s.drawn + {id, token}, jobs := s.jobs[id := P.NewJob(key, token)], table := p.table + {id},
       byKey := p.byKey[key := id], free := s.free - 1, submitting := Some(id))
  }

  lemma BeginStep(s: P.State, key: P.Key, id: P.JobId, token: P.Token, now: real)
    requires Starts(s, key, id, token, now)
    ensures P.Step(s, P.Submit(key, id, token, now)) == Some(Opened(s, key, id, token, now))
  {
  }

  lemma RejectRun(s: P.State, key: P.Key, id: P.JobId, token: P.Token, now: real)
    requires Starts(s, key, id, token, now) && s.jobs.Keys <= s.drawn && s.table <= s.drawn
    ensures var p := P.Prune(s, now);
            P.Run(s, [P.Submit(key, id, token, now), P.Enqueue(false)])
            == Some(p.(drawn := s.drawn + {id, token}, byKey := p.byKey - {key}))
  {
    hide P.Step, P.Run, P.EnqueueStep, P.Prune;
    var begun := Opened(s, key, id, token, now);
    BeginStep(s, key, id, token, now);
    RunTwo(s, P.Submit(key, id, token, now), begun, P.Enqueue(false));
    WithdrawStep(s, key, id, token, now);
  }

  lemma WithdrawStep(s: P.State, key: P.Key, id: P.JobId, token: P.Token, now: real)
    requires Starts(s, key, id, token, now) && s.jobs.Keys <= s.drawn && s.table <= s.drawn
    ensures var p := P.Prune(s, now);
            P.Step(Opened(s, key, id, token, now), P.Enqueue(false))
            == Some(p.(drawn := s.drawn + {id, token}, byKey := p.byKey - {key}))
  {
    var begun, p := Opened(s, key, id, token, now), P.Prune(s, now);
    assert begun.jobs - {id} == p.jobs;
    assert begun.table - {id} == p.table;
    assert begun.byKey - {key} == p.byKey - {key};
  }

  // The three steps a started submission takes while it still holds the lock.
  lemma HandOver(s: P.State, id: P.JobId, j: P.Job)
    requires s.submitting == Some(id) && id in s.jobs && s.jobs[id] == j
    requires j.future.Unsubmitted? && !j.attached
    ensures P.Run(s, [P.Enqueue(true), P.Attach, P.Arm])
            == Some(s.(submitting := None,
                       jobs := s.jobs[id := j.(future := P.Pending, attached := true, callback := P.Armed)]))
  {
    var s2 := s.(jobs := s.jobs[id := j.(future := P.Pending)]);
    var s3 := s.(jobs := s.jobs[id := j.(future := P.Pending, attached := true)]);
    RunTwo(s, P.Enqueue(true), s2, P.Attach);
    assert s2.jobs[id := j.(future := P.Pending, attached := true)] == s3.jobs;
    RunSnoc(s, [P.Enqueue(true), P.Attach], s3, P.Arm);
    assert [P.Enqueue(true), P.Attach] + [P.Arm] == [P.Enqueue(true), P.Attach, P.Arm];
    assert s3.jobs[id := j.(future := P.Pending, attached := true, callback := P.Armed)]
        == s.jobs[id := j.(future := P.Pending, attached := true, callback := P.Armed)];
  }

  lemma {:induction false} RunAppend(s: P.State, events: seq<P.Event>, mid: P.State, more: seq<P.Event>)
    requires P.Run(s, events) == Some(mid)
    ensures P.Run(s, events + more) == P.Run(mid, more)
    decreases |more|
  {
    if more == [] {
      assert events + more == events;
    } else {
      RunAppend(s, events, mid, more[..|more| - 1]);
      assert (events + more)[..|events + more| - 1] == events + more[..|more| - 1];
    }
  }

  lemma StartRun(s: P.State, key: P.Key, id: P.JobId, token: P.Token, now: real)
    requires Starts(s, key, id, token, now)
    ensures var p := P.Prune(s, now);
            P.Run(s, [P.Submit(key, id, token, now)] + [P.Enqueue(true), P.Attach, P.Arm])
            == Some(p.(drawn := s.drawn + {id, token}, table := p.table + {id}, byKey := p.byKey[key := id],
                    free := s.free - 1,
                    jobs := s.jobs[id := Queued(key, token)]))
  {
    hide P.Step, P.Run;
    var begun := Opened(s, key, id, token, now);
    BeginStep(s, key, id, token, now);
    RunOne(s, P.Submit(key, id, token, now));
    RunAppend(s, [P.Submit(key, id, token, now)], begun, [P.Enqueue(true), P.Attach, P.Arm]);
    StartHandOver(begun, id, P.NewJob(key, token), s.jobs);
  }

  lemma StartHandOver(begun: P.State, id: P.JobId, j: P.Job, jobs: map<P.JobId, P.Job>)
    requires begun.submitting == Some(id) && begun.jobs == jobs[id := j]
    requires j.future.Unsubmitted? && !j.attached
    ensures P.Run(begun, [P.Enqueue(true), P.Attach, P.Arm])
            == Some(begun.(submitting := None,
                       jobs := jobs[id := j.(future := P.Pending, attached := true, callback := P.Armed)]))
  {
    HandOver(begun, id, j);
    var k := j.(future := P.Pending, attached := true, callback := P.Armed);
    assert begun.jobs[id := k] == jobs[id := k];
  }

  lemma CancelRun(s: P.State, id: P.JobId, watcher: Option<P.Token>)
    requires s.submitting.None? && P.Reaches(s, id) && s.jobs[id].attached
    requires P.Detach(s.jobs[id], watcher).cancelRequested
    ensures P.Run(s, [P.Cancel(id, watcher), P.Revoke(id)])
            == Some(s.(jobs := s.jobs[id := P.RevokeFuture(P.Detach(s.jobs[id], watcher))]))
  {
    var mid := P.CancelJob(s, id, watcher);
    RunTwo(s, P.Cancel(id, watcher), mid, P.Revoke(id));
    var k := P.RevokeFuture(mid.jobs[id]);
    assert mid.jobs[id := k] == s.jobs[id := k];
  }

  lemma CloseNextRun(s: P.State, events: seq<P.Event>, mid: P.State, id: P.JobId)
    requires P.Run(s, events) == Some(mid) && mid.submitting.None?
    requires id in mid.todo && P.Reaches(mid, id) && mid.jobs[id].attached
    ensures P.Run(s, events + [P.CloseNext(id), P.Revoke(id)])
            == Some(mid.(todo := mid.todo - {id},
                         jobs := mid.jobs[id := P.RevokeFuture(P.Detach(mid.jobs[id], None))]))
  {
    var next := P.CancelJob(mid, id, None).(todo := mid.todo - {id});
    RunTwo(mid, P.CloseNext(id), next, P.Revoke(id));
    RunAppend(s, events, mid, [P.CloseNext(id), P.Revoke(id)]);
    var k := P.RevokeFuture(next.jobs[id]);
    assert next.jobs[id := k] == mid.jobs[id := k];
  }

  lemma CallbackMoves(s: P.State, id: P.JobId, j: P.Job, c: P.CallbackEvent, k: P.Job)
    requires id in s.jobs && P.CallbackStep(j, c) == Some(k)
    ensures P.Step(s.(jobs := s.jobs[id := j]), P.Event.Callback(id, c))
            == Some(s.(jobs := s.jobs[id := k], free := if c.Release? then s.free + 1 else s.free))
  {
    assert s.jobs[id := j][id := k] == s.jobs[id := k];
  }

  // Any chain of callback steps on one job that ends with its release.
  lemma {:induction false} CallbackChain(s: P.State, id: P.JobId, j: P.Job, steps: seq<P.CallbackEvent>, k: P.Job)
    requires id in s.jobs && steps != [] && Chain(j, steps) == Some(k)
    requires forall i :: 0 <= i < |steps| ==> (steps[i].Release? <==> i == |steps| - 1)
    ensures P.Run(s.(jobs := s.jobs[id := j]), Labelled(id, steps))
            == Some(s.(jobs := s.jobs[id := k], free := s.free + 1))
    decreases |steps|
  {
    var t := s.(jobs := s.jobs[id := j]);
    var m := P.CallbackStep(j, steps[0]).value;
    CallbackMoves(s, id, j, steps[0], m);
    RunOne(t, P.Event.Callback(id, steps[0]));
    if |steps| == 1 {
      assert Labelled(id, steps) == [P.Event.Callback(id, steps[0])];
    } else {
      var u := s.(jobs := s.jobs[id := m]);
      CallbackChain(s, id, m, steps[1..], k);
      RunAppend(t, [P.Event.Callback(id, steps[0])], u, Labelled(id, steps[1..]));
      assert Labelled(id, steps) == [P.Event.Callback(id, steps[0])] + Labelled(id, steps[1..]);
    }
  }

  ghost function Chain(j: P.Job, steps: seq<P.CallbackEvent>): Option<P.Job>
    decreases |steps|
  {
    if steps == [] then Some(j) else
    match P.CallbackStep(j, steps[0])
    case None => None
    case Some(m) => Chain(m, steps[1..])
  }

  ghost function Labelled(id: P.JobId, steps: seq<P.CallbackEvent>): (events: seq<P.Event>)
    ensures |events| == |steps|
    ensures forall i :: 0 <= i < |steps| ==> events[i] == P.Event.Callback(id, steps[i])
  {
    if steps == [] then [] else [P.Event.Callback(id, steps[0])] + Labelled(id, steps[1..])
  }

  ghost function CallbackSteps(j: P.Job, now: real): seq<P.CallbackEvent> {
    if j.future.Revoked? then [P.Inspect, P.Record, P.StampEnd(now), P.Post, P.Ring, P.Release]
    else [P.Inspect, P.Release]
  }

  ghost function Ended(j: P.Job, now: real): P.Job {
    if j.future.Revoked?
    then j.(error := Some(P.CANCELLED), finished := Some(now), status := P.Cancelled,
            event := true, callback := P.Released)
    else j.(callback := P.Released)
  }

  lemma EndedByChain(j: P.Job, now: real)
    requires j.callback.Due? && (j.future.Revoked? ==> j.attached && !j.event)
    ensures Chain(j, CallbackSteps(j, now)) == Some(Ended(j, now))
  {
    if j.future.Revoked? {
      var j1 := j.(callback := P.Recording);
      var j2 := j1.(error := Some(P.CANCELLED), callback := P.Stamping);
      var j3 := j2.(finished := Some(now), callback := P.Posting);
      var j4 := j3.(status := P.Cancelled, callback := P.Ringing);
      var j5 := j4.(event := true, callback := P.Releasing);
      assert Chain(j5, [P.Release]) == Some(Ended(j, now));
      assert Chain(j4, [P.Ring] + [P.Release]) == Chain(j5, [P.Release]);
      assert [P.Ring] + [P.Release] == [P.Post, P.Ring, P.Release][1..];
      assert Chain(j3, [P.Post, P.Ring, P.Release]) == Some(Ended(j, now));
      assert [P.Post, P.Ring, P.Release] == [P.StampEnd(now), P.Post, P.Ring, P.Release][1..];
      assert Chain(j2, [P.StampEnd(now), P.Post, P.Ring, P.Release]) == Some(Ended(j, now));
      assert [P.StampEnd(now), P.Post, P.Ring, P.Release]
          == [P.Record, P.StampEnd(now), P.Post, P.Ring, P.Release][1..];
      assert Chain(j1, [P.Record, P.StampEnd(now), P.Post, P.Ring, P.Release]) == Some(Ended(j, now));
      assert [P.Record, P.StampEnd(now), P.Post, P.Ring, P.Release] == CallbackSteps(j, now)[1..];
    } else {
      assert Chain(j.(callback := P.Releasing), [P.Release]) == Some(Ended(j, now));
      assert [P.Release] == CallbackSteps(j, now)[1..];
    }
  }

  // A job whose callback is due ends by the callback's steps exactly when it was still live.
  lemma EndsTheJob(j: P.Job, now: real)
    requires I.JobInv(j) && j.callback.Due?
    ensures Chain(j, CallbackSteps(j, now)) == Some(Ended(j, now))
    ensures I.JobInv(Ended(j, now)) && Ended(j, now).event && !Ended(j, now).status.Live()
    ensures j.status.Live() <==> j.future.Revoked?
    ensures j.future.Revoked? ==> j.attached && !j.event && j.worker.Waiting?
  {
    EndedByChain(j, now);
  }

  lemma DueFacts(s: P.State, id: P.JobId)
    requires I.Inv(s) && id in s.jobs && s.jobs[id].callback.Due?
    ensures var j := s.jobs[id];
            && s.free < s.capacity && I.JobInv(j)
            && (j.future.Revoked? <==> j.attached && j.future.Revoked? && !j.event)
  {
    assert I.JobInv(s.jobs[id]);
    assert id in I.Held(s.jobs);
  }

  lemma FutureRuns(s: P.State, id: P.JobId, j: P.Job, now: real, t: P.State)
    requires I.Inv(s) && id in s.jobs && s.jobs[id] == j
    requires j.callback.Due? && (j.future.Revoked? ==> j.attached && !j.event)
    requires t == s.(free := s.free + 1, jobs := s.jobs[id := Ended(j, now)])
    ensures I.Inv(t) && P.Run(s, Labelled(id, CallbackSteps(j, now))) == Some(t)
  {
    CallbackRun(s, id, j, now);
    KeepsInv(s, Labelled(id, CallbackSteps(j, now)), t);
  }

  lemma CallbackRun(s: P.State, id: P.JobId, j: P.Job, now: real)
    requires id in s.jobs && s.jobs[id] == j
    requires j.callback.Due? && (j.future.Revoked? ==> j.attached && !j.event)
    ensures P.Run(s, Labelled(id, CallbackSteps(j, now)))
            == Some(s.(free := s.free + 1, jobs := s.jobs[id := Ended(j, now)]))
  {
    EndedByChain(j, now);
    CallbackChain(s, id, j, CallbackSteps(j, now), Ended(j, now));
    assert s.jobs[id := j] == s.jobs;
  }
}
