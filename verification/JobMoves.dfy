/**
 What happens to one job while its closure runs: the closure's own steps and the calls of
 clients in between, and how such a stretch is a run of the whole manager.
 */
module JobMoves {
  import opened Wrappers
  import opened Sets
  import P = JobProtocol
  import I = JobInvariant

  // What a scan does when it is called: the row counts it reports, then how it ends.
  datatype Scan = Scan(reports: seq<int>, outcome: Result<P.Payload, P.Fault>)

  // A step of the closure, a submission that joins the job, or a cancel call that reaches it.
  datatype Move = Own(step: P.WorkerEvent) | Join(token: P.Token) | Detach(watcher: Option<P.Token>)

  // Clients find a job that has not been stamped yet; they join it unless it is doomed.
  ghost function MoveStep(j: P.Job, m: Move): Option<P.Job> {
    match m
    case Own(e) => P.WorkerStep(j, e)
    case Join(w) => if j.Open() && j.Joinable() then Some(j.(watchers := j.watchers + {w})) else None
    case Detach(w) => if j.Open() && j.status.Live() then Some(P.Detach(j, w)) else None
  }

  ghost function Moves(j: P.Job, moves: seq<Move>): Option<P.Job> {
    if moves == [] then Some(j) else
    match Moves(j, moves[..|moves| - 1])
    case None => None
    case Some(k) => MoveStep(k, moves[|moves| - 1])
  }

  // The closure's own steps, in order.
  ghost function Steps(moves: seq<Move>): seq<P.WorkerEvent> {
    if moves == [] then [] else
    var last := moves[|moves| - 1];
    Steps(moves[..|moves| - 1]) + if last.Own? then [last.step] else []
  }

  // The watcher tokens of clients that joined meanwhile, in order.
  ghost function Tokens(moves: seq<Move>): seq<P.Token> {
    if moves == [] then [] else
    var last := moves[|moves| - 1];
    Tokens(moves[..|moves| - 1]) + if last.Join? then [last.token] else []
  }

  function Progresses(reports: seq<int>): (steps: seq<P.WorkerEvent>)
    ensures |steps| == |reports| && forall i :: 0 <= i < |steps| ==> steps[i] == P.Progress(reports[i])
  {
    seq(|reports|, i requires 0 <= i < |reports| => P.Progress(reports[i]))
  }

  // The steps of a scan and the check after it are the scan's reports in order, up to the one
  // that found the flag set, then what the scan returned or raised.
  ghost predicate Scanned(steps: seq<P.WorkerEvent>, scan: Scan, final: P.Status) {
    var reports := Progresses(scan.reports);
    match final
    case Done => scan.outcome.Success? && steps == reports + [P.Return(scan.outcome.value), P.PostCheck, P.Save]
    case Failed => scan.outcome.Failure? && steps == reports + [P.Raise(scan.outcome.error)]
    case Cancelled =>
      || steps <= reports
      || (scan.outcome.Success? && steps == reports + [P.Return(scan.outcome.value), P.PostCheck])
    case _ => false
  }

  // How a closure ends: the fault if there is one, then time, status and event.
  function Ending(fails: bool, now: real): seq<P.WorkerEvent> {
    (if fails then [P.RecordFault] else []) + [P.Stamp(now), P.Publish, P.Signal]
  }

  // ---- single moves ----------------------------------------------------------------------

  lemma NoMoves(j: P.Job)
    ensures Moves(j, []) == Some(j) && Steps([]) == []
  {
  }

  lemma OneMove(j: P.Job, moves: seq<Move>, k: P.Job, m: Move)
    requires Moves(j, moves) == Some(k)
    ensures Moves(j, moves + [m]) == MoveStep(k, m)
    ensures Steps(moves + [m]) == Steps(moves) + if m.Own? then [m.step] else []
  {
    assert (moves + [m])[..|moves|] == moves;
  }

  lemma {:induction false} JoinMoves(j: P.Job, moves: seq<Move>, k: P.Job, more: seq<Move>)
    requires Moves(j, moves) == Some(k)
    ensures Moves(j, moves + more) == Moves(k, more) && Steps(moves + more) == Steps(moves) + Steps(more)
    decreases |more|
  {
    if more == [] {
      assert moves + more == moves;
    } else {
      JoinMoves(j, moves, k, more[..|more| - 1]);
      assert (moves + more)[..|moves + more| - 1] == moves + more[..|more| - 1];
    }
  }

  lemma StartMove(j: P.Job)
    requires j.worker.Picked?
    ensures MoveStep(j, Own(P.Start)) == Some(j.(status := P.Running, worker := P.Marked))
  {
  }

  lemma RaiseMove(j: P.Job, f: P.Fault)
    requires j.worker.Calling?
    ensures MoveStep(j, Own(P.Raise(f))) == Some(j.(worker := P.Failing(f, P.Failed)))
  {
  }

  lemma ReturnMove(j: P.Job, v: P.Payload)
    requires j.worker.Calling?
    ensures MoveStep(j, Own(P.Return(v))) == Some(j.(worker := P.Returned(v)))
  {
  }

  lemma SaveMove(j: P.Job)
    requires j.worker.Saving?
    ensures MoveStep(j, Own(P.Save)) == Some(j.(result := Some(j.worker.value), worker := P.Finishing(P.Done)))
  {
  }

  lemma RecordMove(j: P.Job)
    requires j.worker.Failing?
    ensures MoveStep(j, Own(P.RecordFault))
            == Some(j.(error := Some(j.worker.fault), worker := P.Finishing(j.worker.final)))
  {
  }

  lemma EndMoves(j: P.Job, moves: seq<Move>, k: P.Job, now: real)
    requires Moves(j, moves) == Some(k) && k.worker.Finishing?
    ensures var ended := moves + [Own(P.Stamp(now))] + [Own(P.Publish)] + [Own(P.Signal)];
            && Moves(j, ended) == Some(k.(finished := Some(now), status := k.worker.final, event := true,
                                          worker := P.Exiting))
            && Steps(ended) == Steps(moves) + [P.Stamp(now), P.Publish, P.Signal]
  {
    hide Moves, Steps;
    var end := k.worker.final;
    var k1 := k.(finished := Some(now), worker := P.Publishing(end));
    OneMove(j, moves, k, Own(P.Stamp(now)));
    OneMove(j, moves + [Own(P.Stamp(now))], k1, Own(P.Publish));
    OneMove(j, moves + [Own(P.Stamp(now))] + [Own(P.Publish)], k1.(status := end, worker := P.Signalling),
            Own(P.Signal));
  }

  // Clients never clear the flag, and take the last watcher away only by setting it.
  lemma {:induction false} ClientMoves(j: P.Job, moves: seq<Move>, k: P.Job)
    requires Moves(j, moves) == Some(k) && Steps(moves) == []
    ensures j.cancelRequested ==> k.cancelRequested
    ensures j.cancelRequested || j.watchers != {} ==> k.cancelRequested || k.watchers != {}
  {
    if moves != [] {
      ClientMoves(j, moves[..|moves| - 1], Moves(j, moves[..|moves| - 1]).value);
    }
  }

  lemma NoProgress(reports: seq<int>)
    ensures Progresses(reports[..0]) == [] && [] <= Progresses(reports)
  {
  }

  lemma ProgressesNext(reports: seq<int>, n: nat)
    requires n < |reports|
    ensures Progresses(reports[..n + 1]) == Progresses(reports[..n]) + [P.Progress(reports[n])]
    ensures Progresses(reports[..n + 1]) <= Progresses(reports)
  {
  }

  // ---- the invariant of a job ----------------------------------------------------------------

  lemma Watched(j: P.Job)
    requires I.JobInv(j) && j.worker.Picked?
    ensures j.cancelRequested || j.watchers != {}
  {
  }

  // The protocol's invariant of a job survives its closure and what clients do meanwhile.
  lemma {:induction false} MovesKeepJob(j: P.Job, moves: seq<Move>, k: P.Job)
    requires I.JobInv(j) && Moves(j, moves) == Some(k)
    ensures I.JobInv(k)
  {
    hide I.JobInv;
    if moves != [] {
      var mid := Moves(j, moves[..|moves| - 1]).value;
      MovesKeepJob(j, moves[..|moves| - 1], mid);
      MoveKeepsJob(mid, moves[|moves| - 1], k);
    }
  }

  lemma MoveKeepsJob(j: P.Job, m: Move, k: P.Job)
    requires I.JobInv(j) && MoveStep(j, m) == Some(k)
    ensures I.JobInv(k)
  {
    hide I.JobInv;
    match m
    case Own(e) => I.WorkerStepKeepsJob(j, e);
    case Join(w) => I.ClientsKeepJob(j, j.watchers + {w}, false);
    case Detach(w) => I.DetachKeepsJob(j, w);
  }

  // ---- the same stretch in the whole manager -------------------------------------------------

  ghost function WorkSteps(events: seq<P.Event>, id: P.JobId): seq<P.WorkerEvent> {
    if events == [] then [] else
    var last := events[|events| - 1];
    WorkSteps(events[..|events| - 1], id) + if last.Work? && last.id == id then [last.work] else []
  }

  // Client calls and the closure's own steps, and nothing else.
  ghost predicate Stretch(events: seq<P.Event>, id: P.JobId) {
    forall e <- events :: e.Submit? || (e.Cancel? && e.id == id) || (e.Work? && e.id == id)
  }

  // Clients that join bring new tokens, and do not join a closed manager.
  ghost predicate Admissible(s: P.State, moves: seq<Move>) {
    Unique(Tokens(moves)) && (forall w <- Tokens(moves) :: w !in s.drawn) && (s.closed ==> Tokens(moves) == [])
  }

  lemma NewString(used: set<string>) returns (x: string)
    ensures x !in used && forall y <- used :: |y| < |x|
  {
    x := "x";
    if y :| y in used {
      var z := NewString(used - {y});
      x := if |z| > |y| then z else y + "x";
      assert forall u <- used :: u == y || u in used - {y};
    }
  }

  // A time at which no job has been kept for too long.
  lemma NothingStale(s: P.State, ids: set<P.JobId>) returns (now: real)
    requires ids <= s.jobs.Keys
    ensures forall id <- ids :: s.jobs[id].finished.Some? ==> now <= s.jobs[id].finished.value
  {
    now := 0.0;
    if id :| id in ids {
      now := NothingStale(s, ids - {id});
      var end := s.jobs[id].finished;
      now := if end.Some? && end.value < now then end.value else now;
      assert forall other <- ids :: other == id || other in ids - {id};
    }
  }

  lemma PruneNothing(s: P.State) returns (now: real)
    requires s.table <= s.jobs.Keys
    ensures P.Prune(s, now) == s
  {
    now := NothingStale(s, s.table);
    assert P.Stale(s, now) == {};
  }

  // A client joins by submitting the job's key, a watcher leaves by a cancel call.
  lemma JoinLifts(s: P.State, id: P.JobId, w: P.Token, avoid: set<string>) returns (e: P.Event, draw: P.JobId)
    requires I.Inv(s) && s.submitting.None? && !s.closed && id in s.jobs
    requires s.jobs[id].Open() && s.jobs[id].Joinable() && w !in s.drawn && w in avoid
    ensures e.Submit? && draw !in avoid
    ensures P.Step(s, e) == Some(s.(jobs := s.jobs[id := MoveStep(s.jobs[id], Join(w)).value],
                                    drawn := s.drawn + {w, draw}))
  {
    draw := NewString(s.drawn + avoid);
    var now := PruneNothing(s);
    e := P.Submit(s.jobs[id].key, draw, w, now);
    assert s.byKey[s.jobs[id].key] == id;
    assert s.drawn + {draw, w} == s.drawn + {w, draw};
  }

  lemma DetachLifts(s: P.State, id: P.JobId, w: Option<P.Token>)
    requires I.Inv(s) && s.submitting.None? && id in s.jobs && s.jobs[id].Open() && s.jobs[id].status.Live()
    ensures P.Step(s, P.Cancel(id, w)) == Some(s.(jobs := s.jobs[id := P.Detach(s.jobs[id], w)]))
  {
  }

  // One move is one event of the manager, which changes the job and hands out ids at most.
  lemma MoveLifts(s: P.State, id: P.JobId, m: Move, avoid: set<string>) returns (e: P.Event, t: P.State)
    requires I.Inv(s) && s.submitting.None? && id in s.jobs && MoveStep(s.jobs[id], m).Some?
    requires m.Join? ==> !s.closed && m.token !in s.drawn && m.token in avoid
    ensures P.Step(s, e) == Some(t)
    ensures t == s.(jobs := s.jobs[id := MoveStep(s.jobs[id], m).value], drawn := t.drawn)
    ensures s.drawn <= t.drawn && (t.drawn - s.drawn) * avoid == if m.Join? then {m.token} else {}
    ensures match m
            case Own(step) => e == P.Work(id, step)
            case Join(_) => e.Submit?
            case Detach(w) => e == P.Cancel(id, w)
  {
    hide I.Inv, P.SubmitStep;
    match m
    case Own(step) =>
      e := P.Work(id, step);
      t := P.Step(s, e).value;
    case Detach(w) =>
      DetachLifts(s, id, w);
      e := P.Cancel(id, w);
      t := P.Step(s, e).value;
    case Join(w) =>
      var draw;
      e, draw := JoinLifts(s, id, w, avoid);
      t := P.Step(s, e).value;
  }

  // These events take the manager through the moves, and the only ids to avoid that they hand
  // out are the joining clients' tokens.
  ghost predicate Lifted(s: P.State, id: P.JobId, moves: seq<Move>, avoid: set<string>,
                         events: seq<P.Event>, t: P.State)
  {
    && P.Run(s, events) == Some(t) && I.Inv(t)
    && id in s.jobs && Moves(s.jobs[id], moves).Some?
    && t == s.(jobs := s.jobs[id := Moves(s.jobs[id], moves).value], drawn := t.drawn)
    && s.drawn <= t.drawn && (t.drawn - s.drawn) * avoid == SetOf(Tokens(moves))
    && Stretch(events, id) && WorkSteps(events, id) == Steps(moves)
  }

  lemma {:induction false} MovesLift(s: P.State, id: P.JobId, moves: seq<Move>, avoid: set<string>)
    returns (events: seq<P.Event>, t: P.State)
    requires I.Inv(s) && s.submitting.None? && id in s.jobs && Moves(s.jobs[id], moves).Some?
    requires Admissible(s, moves) && SetOf(Tokens(moves)) <= avoid
    ensures Lifted(s, id, moves, avoid, events, t)
  {
    hide I.Inv, P.Step, MoveStep, Admissible, Tokens, Lifted;
    if moves == [] {
      events, t := [], s;
      NothingLifted(s, id, avoid);
    } else {
      TokensBefore(s, moves);
      var part, mid := MovesLift(s, id, moves[..|moves| - 1], avoid);
      events, t := LiftNext(s, id, moves, avoid, part, mid);
    }
  }

  lemma NothingLifted(s: P.State, id: P.JobId, avoid: set<string>)
    requires I.Inv(s) && id in s.jobs
    ensures Lifted(s, id, [], avoid, [], s)
  {
    hide I.Inv, P.Step;
    assert s.jobs[id := s.jobs[id]] == s.jobs;
  }

  lemma LiftNext(s: P.State, id: P.JobId, moves: seq<Move>, avoid: set<string>, part: seq<P.Event>, mid: P.State)
    returns (events: seq<P.Event>, t: P.State)
    requires moves != [] && Lifted(s, id, moves[..|moves| - 1], avoid, part, mid)
    requires s.submitting.None? && Moves(s.jobs[id], moves).Some? && SetOf(Tokens(moves)) <= avoid
    requires var before, m := Tokens(moves[..|moves| - 1]), moves[|moves| - 1];
             && SetOf(Tokens(moves)) == SetOf(before) + (if m.Join? then {m.token} else {})
             && (m.Join? ==> !s.closed && m.token !in s.drawn && m.token !in before)
    ensures Lifted(s, id, moves, avoid, events, t)
  {
    hide I.Inv, P.Step, MoveStep, Tokens, Stretch;
    var e;
    e, t := MoveLifts(mid, id, moves[|moves| - 1], avoid);
    I.StepInv(mid, e);
    DrawnNext(s.drawn, mid.drawn, t.drawn, avoid);
    events := part + [e];
    assert events[..|part|] == part && events[|part|] == e;
    StretchNext(part, e, id);
  }

  lemma DrawnNext(a: set<string>, b: set<string>, c: set<string>, avoid: set<string>)
    requires a <= b <= c
    ensures (c - a) * avoid == (b - a) * avoid + (c - b) * avoid
  {
  }

  lemma StretchNext(events: seq<P.Event>, e: P.Event, id: P.JobId)
    requires Stretch(events, id) && (e.Submit? || (e.Cancel? && e.id == id) || (e.Work? && e.id == id))
    ensures Stretch(events + [e], id)
  {
  }

  lemma TokensBefore(s: P.State, moves: seq<Move>)
    requires moves != [] && Admissible(s, moves)
    ensures Admissible(s, moves[..|moves| - 1])
    ensures var before, m := Tokens(moves[..|moves| - 1]), moves[|moves| - 1];
            && SetOf(Tokens(moves)) == SetOf(before) + (if m.Join? then {m.token} else {})
            && (m.Join? ==> !s.closed && m.token !in s.drawn && m.token !in before)
  {
    var before, m := Tokens(moves[..|moves| - 1]), moves[|moves| - 1];
    var last := if m.Join? then [m.token] else [];
    assert Tokens(moves) == before + last;
    hide Tokens, Unique;
    UniqueParts(before, last);
    if m.Join? {
      assert SetOf(last) == {m.token} by { assert last == [m.token]; }
    }
  }

  lemma {:induction false} RunConcat(s: P.State, events: seq<P.Event>, mid: P.State, more: seq<P.Event>, id: P.JobId)
    requires P.Run(s, events) == Some(mid)
    ensures P.Run(s, events + more) == P.Run(mid, more)
    ensures WorkSteps(events + more, id) == WorkSteps(events, id) + WorkSteps(more, id)
    decreases |more|
  {
    hide P.Step;
    if more == [] {
      assert events + more == events;
    } else {
      RunConcat(s, events, mid, more[..|more| - 1], id);
      assert (events + more)[..|events + more| - 1] == events + more[..|more| - 1];
    }
  }

  lemma RunSingle(s: P.State, e: P.Event, id: P.JobId)
    ensures P.Run(s, [e]) == P.Step(s, e)
    ensures WorkSteps([e], id) == if e.Work? && e.id == id then [e.work] else []
  {
    assert [e][..0] == [];
    assert P.Run(s, []) == Some(s);
  }

  function Started(j: P.Job): P.Job { j.(future := P.Executing, worker := P.Picked) }

  function Vacated(j: P.Job): P.Job { j.(future := P.Resolved, worker := P.Gone, callback := P.Notify(j)) }

  // A closure from the worker that picks it up to the result of its future, with everything
  // clients do meanwhile, is a run of the manager.
  lemma ClosureLifts(s: P.State, id: P.JobId, moves: seq<Move>, k: P.Job)
    returns (events: seq<P.Event>, t: P.State)
    requires I.Inv(s) && s.submitting.None? && id in s.jobs && s.jobs[id].future.Pending?
    requires |P.BusyIds(s.jobs)| < s.workers
    requires Moves(Started(s.jobs[id]), moves) == Some(k) && k.worker.Exiting? && Admissible(s, moves)
    ensures P.Run(s, [P.Pick(id)] + events) == Some(t) && I.Inv(t)
    ensures t == s.(jobs := s.jobs[id := Vacated(k)], drawn := t.drawn)
    ensures s.drawn <= t.drawn
    ensures Stretch(events, id) && WorkSteps(events, id) == Steps(moves) + [P.Resolve]
  {
    hide I.Inv, P.Step, P.Run, Moves, Steps, WorkSteps;
    PickStarts(s, id);
    var s1 := s.(jobs := s.jobs[id := Started(s.jobs[id])]);
    I.StepInv(s, P.Pick(id));
    RunSingle(s, P.Pick(id), id);
    var part, s2 := MovesLift(s1, id, moves, SetOf(Tokens(moves)));
    ResolveLeaves(s2, id);
    I.StepInv(s2, P.Work(id, P.Resolve));
    RunSingle(s2, P.Work(id, P.Resolve), id);
    t := P.Step(s2, P.Work(id, P.Resolve)).value;
    events := part + [P.Work(id, P.Resolve)];
    RunConcat(s1, part, s2, [P.Work(id, P.Resolve)], id);
    RunConcat(s, [P.Pick(id)], s1, events, id);
  }

  lemma PickStarts(s: P.State, id: P.JobId)
    requires id in s.jobs && s.jobs[id].future.Pending? && |P.BusyIds(s.jobs)| < s.workers
    ensures P.Step(s, P.Pick(id)) == Some(s.(jobs := s.jobs[id := Started(s.jobs[id])]))
  {
  }

  lemma ResolveLeaves(s: P.State, id: P.JobId)
    requires id in s.jobs && s.jobs[id].worker.Exiting?
    ensures P.Step(s, P.Work(id, P.Resolve)) == Some(s.(jobs := s.jobs[id := Vacated(s.jobs[id])]))
  {
  }
}
