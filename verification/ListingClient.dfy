/**
 The browser's side of a listing: a generation token per load, and a bounded cache of
 promises shared by loads and prefetches.  A load is one call of the page loader, named
 by its token; promises settle in any order.
 */
module ListingClient {
  import opened Wrappers
  import opened Paths

  const PAGE_CACHE_MAX := 50

  // Everything a listing request depends on besides the page.
  datatype Key = Key(path: string, query: string)

  datatype PageKey = PageKey(key: Key, page: int)

  // What the table shows: the request it answers and the page number in the answer.
  datatype Shown = Shown(key: Key, page: int)

  datatype Vars = Vars(key: Key, page: int, token: nat, cache: seq<(PageKey, nat)>, listing: Option<Shown>)

  // A settled request: the page number of the answer, or a failure.
  datatype Promise = Promise(pageKey: PageKey, outcome: Option<Option<int>>)

  datatype Result = Ok(page: int) | Failed | Superseded

  datatype Load = Load(key: Key, promise: nat, result: Option<Result>)

  datatype State = State(v: Vars, promises: map<nat, Promise>, loads: map<nat, Load>)

  datatype Event =
    | Show(key: Key, fetched: nat)        // another directory or query, first page
    | Turn(page: int, fetched: nat)       // another page of the same listing
    | Prefetch(page: int, fetched: nat)
    | Settle(promise: nat, answer: Option<int>)
    | Resume(token: nat)

  function Init(): State {
    State(Vars(Key("/", ""), 1, 0, [], None), map[], map[])
  }

  // ---- the promise cache ------------------------------------------------------------------

  function Find(cache: seq<(PageKey, nat)>, k: PageKey): Option<nat> {
    if cache == [] then None
    else if cache[|cache| - 1].0 == k then Some(cache[|cache| - 1].1)
    else Find(cache[..|cache| - 1], k)
  }

  function Drop(cache: seq<(PageKey, nat)>, k: PageKey): seq<(PageKey, nat)> {
    if cache == [] then [] else
    Drop(cache[..|cache| - 1], k) + if cache[|cache| - 1].0 == k then [] else [cache[|cache| - 1]]
  }

  // Insert a promise and delete the oldest entries beyond the bound.
  function Insert(cache: seq<(PageKey, nat)>, k: PageKey, p: nat): seq<(PageKey, nat)> {
    var c := cache + [(k, p)];
    if |c| > PAGE_CACHE_MAX then c[|c| - PAGE_CACHE_MAX..] else c
  }

  // fetchPage: the cached promise, or a new one for the current key.
  function Fetch(s: State, page: int, fetched: nat): (State, nat) {
    var k := PageKey(s.v.key, page);
    match Find(s.v.cache, k)
    case Some(p) => (s, p)
    case None =>
      (s.(v := s.v.(cache := Insert(s.v.cache, k, fetched)), promises := s.promises[fetched := Promise(k, None)]),
       fetched)
  }

  // The start of a load, up to its wait.
  function BeginLoad(s: State, page: int, fetched: nat): State {
    var t := s.(v := s.v.(token := s.v.token + 1));
    var (u, p) := Fetch(t, page, fetched);
    u.(loads := u.loads[t.v.token := Load(s.v.key, p, None)])
  }

  // The end of a load: a superseded one touches nothing, a failed one leaves the table empty.
  function Outcome(v: Vars, token: nat, l: Load, answer: Option<int>): (Vars, Result) {
    match answer
    case None => if token != v.token then (v, Superseded) else (v.(listing := None), Failed)
    case Some(page) =>
      if token != v.token || l.key != v.key then (v, Superseded)
      else (v.(listing := Some(Shown(l.key, page)), page := page), Ok(page))
  }

  function Step(s: State, e: Event): Option<State> {
    match e
    case Show(key, fetched) =>
      if fetched in s.promises then None
      else Some(BeginLoad(s.(v := s.v.(key := key, page := 1, cache := [])), 1, fetched))
    case Turn(page, fetched) => if fetched in s.promises then None else Some(BeginLoad(s, page, fetched))
    case Prefetch(page, fetched) => if fetched in s.promises then None else Some(Fetch(s, page, fetched).0)
    case Settle(p, answer) =>
      if p !in s.promises || s.promises[p].outcome.Some? then None else
      var k := s.promises[p].pageKey;
      var cache := if answer.None? && Find(s.v.cache, k) == Some(p) then Drop(s.v.cache, k) else s.v.cache;
      Some(s.(v := s.v.(cache := cache), promises := s.promises[p := Promise(k, Some(answer))]))
    case Resume(token) =>
      if token !in s.loads || s.loads[token].result.Some? then None else
      var l := s.loads[token];
      if l.promise !in s.promises || s.promises[l.promise].outcome.None? then None else
      var (v, r) := Outcome(s.v, token, l, s.promises[l.promise].outcome.value);
      Some(s.(v := v, loads := s.loads[token := l.(result := Some(r))]))
  }

  function Run(init: State, events: seq<Event>): Option<State> {
    if events == [] then Some(init) else
    match Run(init, events[..|events| - 1])
    case None => None
    case Some(s) => Step(s, events[|events| - 1])
  }

  // ---- the invariant --------------------------------------------------------------------------

  // Cached promises answer requests for the current key, none of them failed, each once.
  ghost predicate CacheOk(s: State) {
    && |s.v.cache| <= PAGE_CACHE_MAX
    && (forall i, j :: 0 <= i < j < |s.v.cache| ==> s.v.cache[i].0 != s.v.cache[j].0)
    && forall c <- s.v.cache ::
         && c.0.key == s.v.key && c.1 in s.promises && s.promises[c.1].pageKey == c.0
         && s.promises[c.1].outcome != Some(None)
  }

  ghost predicate LoadOk(s: State, t: nat)
    requires t in s.loads
  {
    var l := s.loads[t];
    && t <= s.v.token
    && l.promise in s.promises && s.promises[l.promise].pageKey.key == l.key
    && (t == s.v.token ==> l.key == s.v.key && l.result != Some(Superseded))
    && (l.result.Some? ==> s.promises[l.promise].outcome.Some?)
    && (t == s.v.token && l.result.Some? ==>
          match s.promises[l.promise].outcome.value
          case None => l.result == Some(Failed) && s.v.listing == None
          case Some(page) =>
            l.result == Some(Ok(page)) && s.v.listing == Some(Shown(l.key, page)) && s.v.page == page)
  }

  ghost predicate Inv(s: State) {
    CacheOk(s) && forall t <- s.loads :: LoadOk(s, t)
  }

  lemma {:induction false} FindInCache(cache: seq<(PageKey, nat)>, k: PageKey)
    ensures Find(cache, k).Some? ==> (k, Find(cache, k).value) in cache
    ensures Find(cache, k).None? ==> forall c <- cache :: c.0 != k
  {
    if cache != [] {
      var rest, last := cache[..|cache| - 1], cache[|cache| - 1];
      FindInCache(rest, k);
      assert cache == rest + [last];
    }
  }

  lemma {:induction false} DropFromCache(cache: seq<(PageKey, nat)>, k: PageKey)
    requires forall i, j :: 0 <= i < j < |cache| ==> cache[i].0 != cache[j].0
    ensures |Drop(cache, k)| <= |cache|
    ensures forall c :: c in Drop(cache, k) <==> c in cache && c.0 != k
    ensures forall i, j :: 0 <= i < j < |Drop(cache, k)| ==> Drop(cache, k)[i].0 != Drop(cache, k)[j].0
  {
    if cache != [] {
      var rest, last := cache[..|cache| - 1], cache[|cache| - 1];
      DropFromCache(rest, k);
      assert cache == rest + [last];
      var d := Drop(rest, k);
      forall i | 0 <= i < |d|
        ensures d[i].0 != last.0
      {
        assert d[i] in rest;
      }
    }
  }

  // Forgetting a failed promise takes its entry out of the cache, if it is still there.
  lemma Forgets(s: State, k: PageKey, p: nat)
    requires Inv(s) && p in s.promises && s.promises[p].pageKey == k
    ensures var after := if Find(s.v.cache, k) == Some(p) then Drop(s.v.cache, k) else s.v.cache;
            forall c :: c in after <==> c in s.v.cache && c != (k, p)
  {
    FindInCache(s.v.cache, k);
    DropFromCache(s.v.cache, k);
    forall c <- s.v.cache | c.0 == k && Find(s.v.cache, k).Some?
      ensures c == (k, Find(s.v.cache, k).value)
    {
      SameEntry(s.v.cache, c, (k, Find(s.v.cache, k).value));
    }
  }

  lemma InitInv()
    ensures Inv(Init())
  {
  }

  lemma FetchKeepsRest(s: State, page: int, fetched: nat)
    ensures var t := Fetch(s, page, fetched).0;
            t.loads == s.loads && t.v == s.v.(cache := t.v.cache)
  {
  }

  lemma FetchKeeps(s: State, page: int, fetched: nat)
    requires CacheOk(s) && fetched !in s.promises
    ensures var (t, p) := Fetch(s, page, fetched);
            && CacheOk(t) && p in t.promises && t.promises[p].pageKey == PageKey(s.v.key, page)
            && (forall q <- s.promises :: q in t.promises && t.promises[q] == s.promises[q])
            && t.loads == s.loads && t.v.key == s.v.key && t.v.token == s.v.token
            && t.v.listing == s.v.listing && t.v.page == s.v.page
  {
    hide Find, Insert;
    var k := PageKey(s.v.key, page);
    FindInCache(s.v.cache, k);
    if Find(s.v.cache, k).None? {
      InsertInCache(s.v.cache, k, fetched);
    }
  }

  lemma InsertInCache(cache: seq<(PageKey, nat)>, k: PageKey, p: nat)
    requires |cache| <= PAGE_CACHE_MAX && forall c <- cache :: c.0 != k
    requires forall i, j :: 0 <= i < j < |cache| ==> cache[i].0 != cache[j].0
    ensures |Insert(cache, k, p)| <= PAGE_CACHE_MAX
    ensures forall c <- Insert(cache, k, p) :: c in cache || c == (k, p)
    ensures forall i, j :: 0 <= i < j < |Insert(cache, k, p)| ==> Insert(cache, k, p)[i].0 != Insert(cache, k, p)[j].0
  {
  }

  lemma SettleKeeps(s: State, p: nat, answer: Option<int>)
    requires Inv(s) && Step(s, Settle(p, answer)).Some?
    ensures Inv(Step(s, Settle(p, answer)).value)
  {
    var t := Step(s, Settle(p, answer)).value;
    var k := s.promises[p].pageKey;
    FindInCache(s.v.cache, k);
    DropFromCache(s.v.cache, k);
    SettledCache(s, p, answer);
    forall l <- t.loads
      ensures LoadOk(t, l)
    {
      assert LoadOk(s, l);
    }
  }

  lemma SettledCache(s: State, p: nat, answer: Option<int>)
    requires CacheOk(s) && Step(s, Settle(p, answer)).Some?
    ensures CacheOk(Step(s, Settle(p, answer)).value)
  {
    hide Find, Drop;
    var t := Step(s, Settle(p, answer)).value;
    var k := s.promises[p].pageKey;
    FindInCache(s.v.cache, k);
    DropFromCache(s.v.cache, k);
    forall c <- t.v.cache
      ensures c.0.key == t.v.key && c.1 in t.promises && t.promises[c.1].pageKey == c.0
      ensures t.promises[c.1].outcome != Some(None)
    {
      assert c in s.v.cache;
      if c.1 == p {
        match Find(s.v.cache, k)
        case Some(f) => SameEntry(s.v.cache, c, (k, f));
        case None =>
      }
    }
  }

  lemma SameEntry(cache: seq<(PageKey, nat)>, a: (PageKey, nat), b: (PageKey, nat))
    requires forall i, j :: 0 <= i < j < |cache| ==> cache[i].0 != cache[j].0
    requires a in cache && b in cache && a.0 == b.0
    ensures a == b
  {
  }

  lemma BeginKeeps(s: State, page: int, fetched: nat)
    requires CacheOk(s) && fetched !in s.promises
    requires forall t <- s.loads :: t <= s.v.token && s.loads[t].promise in s.promises
                                    && s.promises[s.loads[t].promise].pageKey.key == s.loads[t].key
                                    && (s.loads[t].result.Some? ==> s.promises[s.loads[t].promise].outcome.Some?)
    ensures Inv(BeginLoad(s, page, fetched))
  {
    hide Fetch;
    var t := s.(v := s.v.(token := s.v.token + 1));
    FetchKeeps(t, page, fetched);
    var u := BeginLoad(s, page, fetched);
    forall l <- u.loads
      ensures LoadOk(u, l)
    {
    }
  }

  lemma StepInv(s: State, e: Event)
    requires Inv(s) && Step(s, e).Some?
    ensures Inv(Step(s, e).value)
  {
    hide Find, Drop, Insert;
    assert forall t <- s.loads :: LoadOk(s, t);
    match e
    case Show(key, fetched) => BeginKeeps(s.(v := s.v.(key := key, page := 1, cache := [])), 1, fetched);
    case Turn(page, fetched) => BeginKeeps(s, page, fetched);
    case Prefetch(page, fetched) => FetchKeeps(s, page, fetched);
    case Settle(p, answer) => SettleKeeps(s, p, answer);
    case Resume(token) =>
      var t := Step(s, e).value;
      forall l <- t.loads
        ensures LoadOk(t, l)
      {
        assert LoadOk(s, l);
      }
  }

  lemma {:induction false} RunInv(events: seq<Event>)
    requires Run(Init(), events).Some?
    ensures Inv(Run(Init(), events).value)
  {
    hide Step;
    if events != [] {
      var before := events[..|events| - 1];
      RunInv(before);
      StepInv(Run(Init(), before).value, events[|events| - 1]);
    }
  }

  // ---- what holds over every order of completions -----------------------------------------------

  // The request of an ended load was answered and the table shows the answer for the current
  // directory and query, or it failed and the table shows nothing.
  ghost predicate Shows(s: State, l: Load) {
    && l.promise in s.promises && s.promises[l.promise].outcome.Some?
    && match s.promises[l.promise].outcome.value
       case None => l.result == Some(Failed) && s.v.listing == None
       case Some(page) =>
         l.result == Some(Ok(page)) && s.v.listing == Some(Shown(s.v.key, page)) && s.v.page == page
  }

  // When the latest load has ended, the table shows its answer for the current directory and
  // query, or nothing if it failed; it is never superseded.
  lemma TableIsTheLatestLoads(events: seq<Event>)
    requires Run(Init(), events).Some?
    requires var s := Run(Init(), events).value; s.v.token in s.loads && s.loads[s.v.token].result.Some?
    ensures var s := Run(Init(), events).value;
            Shows(s, s.loads[s.v.token])
  {
    hide Inv, Step;
    RunInv(events);
    LatestShows(Run(Init(), events).value);
  }

  lemma LatestShows(s: State)
    requires Inv(s) && s.v.token in s.loads && s.loads[s.v.token].result.Some?
    ensures Shows(s, s.loads[s.v.token])
  {
    assert LoadOk(s, s.v.token);
  }

  // A load that is not the latest changes nothing but its own record.
  lemma SupersededIsSilent(s: State, token: nat)
    requires Inv(s) && Step(s, Resume(token)).Some?
    ensures token != s.v.token <==> Step(s, Resume(token)).value.loads[token].result == Some(Superseded)
    ensures token != s.v.token ==> Step(s, Resume(token)).value.v == s.v
  {
    assert LoadOk(s, token);
  }

  // Cached promises are for the current directory and query, so no answer of an earlier one
  // can be served, and a failed request is always retried.
  lemma CacheServesCurrentKey(events: seq<Event>, k: PageKey)
    requires Run(Init(), events).Some? && Find(Run(Init(), events).value.v.cache, k).Some?
    ensures var s := Run(Init(), events).value;
            var p := Find(s.v.cache, k).value;
            k.key == s.v.key && p in s.promises && s.promises[p].pageKey == k && s.promises[p].outcome != Some(None)
    ensures |Run(Init(), events).value.v.cache| <= PAGE_CACHE_MAX
  {
    RunInv(events);
    FindInCache(Run(Init(), events).value.v.cache, k);
  }
}
