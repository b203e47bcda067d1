/**
 The browser's side of a rollup: generation tokens guard every continuation, and each
 job watched is let go of exactly once.  A chain is one call of the rollup loader with
 its request and its polls; its token names it.  Completions arrive in any order.
 */
module RollupClient {
  import opened Wrappers
  import opened Paths
  import opened Sets

  // A job and the cancel token handed out with it.
  datatype Pair = Pair(job: string, token: string)

  // The variables that all continuations share; `panel` is the token of the chain whose
  // text the panel shows.
  datatype Vars = Vars(path: string, rollupToken: nat, active: Option<Pair>, inFlight: Option<string>,
                       panel: Option<nat>)

  datatype Reply = Ready | Accepted(pair: Pair) | Rejected

  datatype Status = Done | Ended | Progress | Unreachable

  // ---- the synchronous pieces -------------------------------------------------------------

  function DeletedBy(v: Vars): seq<Pair> {
    if v.active.Some? then [v.active.value] else []
  }

  function CancelActive(v: Vars): Vars {
    v.(rollupToken := v.rollupToken + 1, inFlight := None, active := None)
  }

  function OnNavigate(v: Vars, path: string): Vars {
    CancelActive(v.(path := NormalizePrefix(path))).(panel := None)
  }

  function OnLoad(v: Vars, path: string): Vars {
    var w := CancelActive(v);
    w.(rollupToken := w.rollupToken + 1, inFlight := Some(path), panel := None)
  }

  function OnReply(v: Vars, token: nat, r: Reply): Vars {
    if token != v.rollupToken then v else
    match r
    case Ready => v.(inFlight := None, panel := Some(token))
    case Rejected => v.(inFlight := None, panel := Some(token))
    case Accepted(pair) => v.(active := Some(pair))
  }

  function Released(v: Vars, job: string): Option<Pair> {
    if v.active.Some? && v.active.value.job == job then None else v.active
  }

  function OnStatus(v: Vars, token: nat, job: string, s: Status): Vars {
    if token != v.rollupToken then v else
    match s
    case Unreachable => v.(inFlight := None, panel := Some(token))
    case Progress => v.(panel := Some(token))
    case Done => v.(active := Released(v, job), inFlight := None, panel := Some(token))
    case Ended => v.(active := Released(v, job), inFlight := None, panel := Some(token))
  }

  // ---- the step system -----------------------------------------------------------------------

  datatype Phase = Requesting | Sleeping(pair: Pair) | Polling(pair: Pair) | Over

  datatype Chain = Chain(path: string, phase: Phase)

  datatype State = State(
    v: Vars,
    chains: map<nat, Chain>,
    received: set<Pair>,         // every pair a 202 reply carried
    deleted: seq<Pair>,          // DELETE requests, in the order they were issued
    terminal: set<Pair>)         // pairs whose own poll saw the job end

  datatype Event =
    | Navigate(path: string)
    | Load(path: string)
    | GetReply(token: nat, reply: Reply)
    | Timer(token: nat)
    | GetStatus(token: nat, status: Status)

  function Init(): State {
    State(Vars("/", 0, None, None, None), map[], {}, [], {})
  }

  function Continue(s: State, token: nat, phase: Phase): map<nat, Chain>
    requires token in s.chains
  {
    s.chains[token := s.chains[token].(phase := phase)]
  }

  function Step(s: State, e: Event): Option<State> {
    match e
    case Navigate(path) => Some(s.(v := OnNavigate(s.v, path), deleted := s.deleted + DeletedBy(s.v)))
    case Load(path) =>
      // The navigation that asks for it has just compared its target with the current path.
      if path != s.v.path then None else
      var v := OnLoad(s.v, path);
      Some(s.(v := v, deleted := s.deleted + DeletedBy(s.v),
              chains := s.chains[v.rollupToken := Chain(path, Requesting)]))
    case GetReply(token, r) =>
      if token !in s.chains || !s.chains[token].phase.Requesting? || (r.Accepted? && r.pair in s.received) then None
      else
      var stale := token != s.v.rollupToken;
      Some(s.(v := OnReply(s.v, token, r),
           received := if r.Accepted? then s.received + {r.pair} else s.received,
           deleted := if r.Accepted? && stale then s.deleted + [r.pair] else s.deleted,
           chains := Continue(s, token, if r.Accepted? && !stale then Sleeping(r.pair) else Over)))
    case Timer(token) =>
      if token !in s.chains || !s.chains[token].phase.Sleeping? then None else
      var pair := s.chains[token].phase.pair;
      Some(s.(chains := Continue(s, token, if token == s.v.rollupToken then Polling(pair) else Over)))
    case GetStatus(token, status) =>
      if token !in s.chains || !s.chains[token].phase.Polling? then None else
      var pair := s.chains[token].phase.pair;
      var stale := token != s.v.rollupToken;
      Some(s.(v := OnStatus(s.v, token, pair.job, status),
           terminal := if !stale && (status.Done? || status.Ended?) then s.terminal + {pair} else s.terminal,
           chains := Continue(s, token, if !stale && status.Progress? then Sleeping(pair) else Over)))
  }

  // A poll's answer goes through to the shared variables, and a job still at work is asked
  // about again.
  lemma StatusStep(s: State, token: nat, status: Status)
    requires token in s.chains && s.chains[token].phase.Polling?
    ensures Step(s, GetStatus(token, status)).Some?
    ensures var t := Step(s, GetStatus(token, status)).value;
            && t.v == OnStatus(s.v, token, s.chains[token].phase.pair.job, status)
            && token in t.chains
            && (t.chains[token].phase.Sleeping? <==> token == s.v.rollupToken && status.Progress?)
  {
  }

  function Run(init: State, events: seq<Event>): Option<State> {
    if events == [] then Some(init) else
    match Run(init, events[..|events| - 1])
    case None => None
    case Some(s) => Step(s, events[|events| - 1])
  }

  // ---- the invariant ---------------------------------------------------------------------------

  // A pair is active, deleted or seen terminal, and only one of these.
  predicate OneFate(s: State, p: Pair) {
    && (s.v.active == Some(p) || p in s.deleted || p in s.terminal)
    && !(s.v.active == Some(p) && p in s.deleted)
    && !(s.v.active == Some(p) && p in s.terminal)
    && !(p in s.deleted && p in s.terminal)
  }

  ghost predicate PairsOk(s: State) {
    && Unique(s.deleted)
    && (forall p <- s.received :: OneFate(s, p))
    && (forall p <- s.deleted :: p in s.received)
    && (forall p <- s.terminal :: p in s.received)
    && (s.v.active.Some? ==> s.v.active.value in s.received)
  }

  // The chain of the current token, if there is one, is for the current path, and is what
  // the shared variables speak of.
  predicate CurrentOk(s: State) {
    && (s.v.rollupToken in s.chains ==>
          var c := s.chains[s.v.rollupToken];
          && c.path == s.v.path
          && s.v.inFlight == (if c.phase.Over? then None else Some(s.v.path))
          && (c.phase.Requesting? ==> s.v.active.None?)
          && (c.phase.Sleeping? || c.phase.Polling? ==> s.v.active == Some(c.phase.pair)))
    && (s.v.rollupToken !in s.chains ==> s.v.inFlight.None? && s.v.active.None? && s.v.panel.None?)
    && (s.v.panel.Some? ==> s.v.panel.value == s.v.rollupToken)
  }

  ghost predicate Inv(s: State) {
    && PairsOk(s) && CurrentOk(s)
    && (forall t <- s.chains :: t <= s.v.rollupToken)
  }

  lemma InitInv()
    ensures Inv(Init())
  {
  }

  lemma CancelKeepsPairs(s: State, v: Vars)
    requires PairsOk(s) && v.active.None?
    ensures PairsOk(s.(v := v, deleted := s.deleted + DeletedBy(s.v)))
  {
    var t := s.(v := v, deleted := s.deleted + DeletedBy(s.v));
    if s.v.active.Some? {
      assert OneFate(s, s.v.active.value);
      UniqueSnoc(s.deleted, s.v.active.value);
    } else {
      assert s.deleted + [] == s.deleted;
    }
    forall p <- t.received
      ensures OneFate(t, p)
    {
      assert OneFate(s, p);
    }
  }

  lemma ReplyInv(s: State, token: nat, r: Reply)
    requires Inv(s) && Step(s, GetReply(token, r)).Some?
    ensures Inv(Step(s, GetReply(token, r)).value)
  {
    var t := Step(s, GetReply(token, r)).value;
    if r.Accepted? && r.pair !in s.deleted {
      UniqueSnoc(s.deleted, r.pair);
    }
    forall p <- t.received
      ensures OneFate(t, p)
    {
      assert p in s.received ==> OneFate(s, p);
    }
  }

  lemma StatusInv(s: State, token: nat, status: Status)
    requires Inv(s) && Step(s, GetStatus(token, status)).Some?
    ensures Inv(Step(s, GetStatus(token, status)).value)
  {
    var t := Step(s, GetStatus(token, status)).value;
    forall p <- t.received
      ensures OneFate(t, p)
    {
      assert OneFate(s, p);
    }
  }

  lemma TimerInv(s: State, token: nat)
    requires Inv(s) && Step(s, Timer(token)).Some?
    ensures Inv(Step(s, Timer(token)).value)
  {
    var t := Step(s, Timer(token)).value;
    forall p <- t.received
      ensures OneFate(t, p)
    {
      assert OneFate(s, p);
    }
  }

  lemma StepInv(s: State, e: Event)
    requires Inv(s) && Step(s, e).Some?
    ensures Inv(Step(s, e).value)
  {
    match e
    case Navigate(_) => CancelKeepsPairs(s, Step(s, e).value.v);
    case Load(_) => CancelKeepsPairs(s, Step(s, e).value.v);
    case Timer(token) => TimerInv(s, token);
    case GetReply(token, r) => ReplyInv(s, token, r);
    case GetStatus(token, status) => StatusInv(s, token, status);
  }

  lemma {:induction false} RunInv(events: seq<Event>)
    requires Run(Init(), events).Some?
    ensures Inv(Run(Init(), events).value)
  {
    if events != [] {
      var before := events[..|events| - 1];
      RunInv(before);
      StepInv(Run(Init(), before).value, events[|events| - 1]);
    }
  }

  // ---- what holds over every order of completions ------------------------------------------------

  // Each pair received is active, or one DELETE was issued for it, or its own poll saw the
  // job end: exactly one of the three.
  lemma EachJobLetGoOnce(events: seq<Event>, p: Pair)
    requires Run(Init(), events).Some? && p in Run(Init(), events).value.received
    ensures var s := Run(Init(), events).value;
            (if s.v.active == Some(p) then 1 else 0) + multiset(s.deleted)[p] + (if p in s.terminal then 1 else 0) == 1
  {
    hide Inv, Step;
    RunInv(events);
    OwnedOnce(Run(Init(), events).value, p);
  }

  lemma OwnedOnce(s: State, p: Pair)
    requires Inv(s) && p in s.received
    ensures (if s.v.active == Some(p) then 1 else 0) + multiset(s.deleted)[p] + (if p in s.terminal then 1 else 0) == 1
  {
    assert OneFate(s, p);
    CountOnce(s.deleted, p);
  }

  lemma {:induction false} CountOnce(s: seq<Pair>, p: Pair)
    requires Unique(s)
    ensures multiset(s)[p] == if p in s then 1 else 0
  {
    if s != [] {
      var rest, last := s[..|s| - 1], s[|s| - 1];
      assert s == rest + [last];
      CountOnce(rest, p);
    }
  }

  // Only what was handed out is ever deleted.
  lemma DeletesAreOwn(events: seq<Event>, p: Pair)
    requires Run(Init(), events).Some? && p in Run(Init(), events).value.deleted
    ensures p in Run(Init(), events).value.received
  {
    RunInv(events);
  }

  // Leaving a directory lets go of every job still watched.
  lemma NavigatingDetaches(events: seq<Event>, path: string, p: Pair)
    requires Run(Init(), events).Some? && p in Run(Init(), events).value.received
    ensures var s := Step(Run(Init(), events).value, Navigate(path)).value;
            p in s.terminal || p in s.deleted
  {
    RunInv(events);
    var s := Run(Init(), events).value;
    StepInv(s, Navigate(path));
    assert OneFate(Step(s, Navigate(path)).value, p);
  }

  // The path in flight is none or the one shown, and it is set exactly while the chain of
  // the current token is still at work on it.
  lemma InFlightIsHonest(events: seq<Event>)
    requires Run(Init(), events).Some?
    ensures var s := Run(Init(), events).value;
            && (s.v.inFlight.None? || s.v.inFlight == Some(s.v.path))
            && (s.v.inFlight.Some? <==>
                  s.v.rollupToken in s.chains && !s.chains[s.v.rollupToken].phase.Over?)
  {
    RunInv(events);
  }

  // Whatever the panel shows was painted by the chain of the current token, for the current
  // path; no stale chain repaints it.
  lemma PanelIsCurrent(events: seq<Event>)
    requires Run(Init(), events).Some? && Run(Init(), events).value.v.panel.Some?
    ensures var s := Run(Init(), events).value;
            && s.v.panel == Some(s.v.rollupToken)
            && s.v.rollupToken in s.chains && s.chains[s.v.rollupToken].path == s.v.path
  {
    RunInv(events);
  }

  lemma TokensGrow(s: State, e: Event)
    requires Step(s, e).Some?
    ensures s.v.rollupToken <= Step(s, e).value.v.rollupToken
  {
  }

  lemma {:induction false} NeverCurrentAgain(events: seq<Event>, more: seq<Event>, token: nat)
    requires Run(Init(), events).Some? && Run(Init(), events + more).Some?
    requires token < Run(Init(), events).value.v.rollupToken
    ensures token < Run(Init(), events + more).value.v.rollupToken
    decreases |more|
  {
    if more == [] {
      assert events + more == events;
    } else {
      var before := more[..|more| - 1];
      assert (events + more)[..|events + more| - 1] == events + before;
      NeverCurrentAgain(events, before, token);
      TokensGrow(Run(Init(), events + before).value, more[|more| - 1]);
    }
  }

  // Once superseded, a chain's continuation changes no shared variable, however much later it
  // runs, and the chain ends there.
  lemma StaleChainsAreSilent(events: seq<Event>, more: seq<Event>, e: Event)
    requires Run(Init(), events).Some? && Run(Init(), events + more).Some?
    requires e.GetReply? || e.Timer? || e.GetStatus?
    requires var s := Run(Init(), events).value; e.token in s.chains && e.token != s.v.rollupToken
    requires Step(Run(Init(), events + more).value, e).Some?
    ensures var s := Run(Init(), events + more).value; var t := Step(s, e).value;
            t.v == s.v && t.terminal == s.terminal && t.chains[e.token].phase.Over?
  {
    RunInv(events);
    NeverCurrentAgain(events, more, e.token);
  }
}
