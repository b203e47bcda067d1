/**
 The browser client as the program has it: module variables updated by event handlers and
 by the continuations of asynchronous calls, which carry their own token, path and job.
 Each method is one synchronous piece, and each is a step of RollupClient, of
 ListingClient, or of both: the ghost states hold what the continuations still to come
 remember, and the validity of the object ties them to the variables.
 */
module AppClient {
  import opened Wrappers
  import opened Paths
  import R = RollupClient
  import L = ListingClient

  class AppClient {
    var path: string
    var query: string
    var page: int
    var rollupToken: nat
    var activeRollupJobId: Option<string>
    var activeRollupCancelToken: Option<string>
    var rollupInFlight: Option<string>
    var listingToken: nat
    var listing: Option<L.Shown>
    var pageCache: seq<(L.PageKey, nat)>
    ghost var panel: Option<nat>
    ghost var rollups: R.State
    ghost var listings: L.State

    ghost predicate Valid()
      reads this
    {
      && Paired() && rollups.v == Rollup() && listings.v == Listing()
      && R.Inv(rollups) && L.Inv(listings)
    }

    // The job and its cancel token are set and cleared together.
    ghost predicate Paired()
      reads `activeRollupJobId, `activeRollupCancelToken
    {
      activeRollupJobId.Some? <==> activeRollupCancelToken.Some?
    }

    ghost function Active(): Option<R.Pair>
      requires Paired()
      reads `activeRollupJobId, `activeRollupCancelToken
    {
      if activeRollupJobId.Some? then Some(R.Pair(activeRollupJobId.value, activeRollupCancelToken.value)) else None
    }

    // The DELETE that letting go of the active job takes.
    ghost function Watched(): seq<R.Pair>
      requires Paired()
      reads `activeRollupJobId, `activeRollupCancelToken
    {
      if activeRollupJobId.None? then []
      else [R.Pair(activeRollupJobId.value, activeRollupCancelToken.value)]
    }

    ghost function Rollup(): R.Vars
      requires Paired()
      reads `path, `rollupToken, `activeRollupJobId, `activeRollupCancelToken, `rollupInFlight, `panel
    {
      R.Vars(path, rollupToken, Active(), rollupInFlight, panel)
    }

    ghost function Listing(): L.Vars
      reads `path, `query, `page, `listingToken, `pageCache, `listing
    {
      L.Vars(L.Key(path, query), page, listingToken, pageCache, listing)
    }

    // A load under this token waits for this promise.
    ghost predicate Awaits(token: nat, promise: nat)
      reads this
    {
      token == listingToken && token in listings.loads
      && listings.loads[token] == L.Load(L.Key(path, query), promise, None)
    }

    // A page was asked of a cache of promises: the cached one is shared and nothing else
    // changes; without one a new one is kept, together with the newest others that leave it
    // room among fifty.
    ghost predicate Fetched(before: seq<(L.PageKey, nat)>, page: int, fetched: nat, promise: nat)
      reads `path, `query, `pageCache
    {
      var k := L.PageKey(L.Key(path, query), page);
      if exists c <- before :: c.0 == k then (k, promise) in before && pageCache == before
      else
        var all := before + [(k, fetched)];
        && promise == fetched
        && pageCache == if |all| <= 50 then all else all[|all| - 50..]
    }

    constructor ()
      ensures Valid() && rollups == R.Init() && listings == L.Init()
    {
      path, query, page := "/", "", 1;
      rollupToken, activeRollupJobId, activeRollupCancelToken, rollupInFlight := 0, None, None, None;
      listingToken, listing, pageCache, panel := 0, None, [], None;
      rollups, listings := R.Init(), L.Init();
      new;
      R.InitInv();
      L.InitInv();
    }

    // ---- what any order of the pieces below adds up to ------------------------------------

    // Each job handed to the client is active, had one DELETE, or was seen to end: exactly one.
    lemma OwnsEachJobOnce(p: R.Pair)
      requires Valid() && p in rollups.received
      ensures (if Active() == Some(p) then 1 else 0) + multiset(rollups.deleted)[p]
              + (if p in rollups.terminal then 1 else 0) == 1
    {
      hide R.Inv, L.Inv;
      R.OwnedOnce(rollups, p);
    }

    // The spinner's path is none or the current path, shown exactly while the current chain
    // works, and what the panel shows is the current chain's.
    lemma ShowsTheCurrentPath()
      requires Valid()
      ensures rollupInFlight.None? || rollupInFlight == Some(path)
      ensures rollupInFlight.Some? <==> rollupToken in rollups.chains && !rollups.chains[rollupToken].phase.Over?
      ensures panel.Some? ==>
        panel == Some(rollupToken) && rollupToken in rollups.chains && rollups.chains[rollupToken].path == path
    {
    }

    // Once the latest load has ended the table shows its answer for the current directory and
    // query, or nothing if its request failed.
    lemma ShowsTheLatestLoad()
      requires Valid() && listingToken in listings.loads && listings.loads[listingToken].result.Some?
      ensures var load := listings.loads[listingToken];
              && load.promise in listings.promises && listings.promises[load.promise].outcome.Some?
              && match listings.promises[load.promise].outcome.value
                 case None => load.result == Some(L.Failed) && listing == None
                 case Some(n) =>
                   load.result == Some(L.Ok(n)) && listing == Some(L.Shown(L.Key(path, query), n)) && page == n
    {
      hide R.Inv, L.Inv;
      L.LatestShows(listings);
    }

    // ---- navigation -----------------------------------------------------------------------

    // Invalidate the running chain and detach from its job; the DELETE requests issued.
    method CancelActiveRollup() returns (deletes: seq<R.Pair>)
      requires Paired()
      modifies `rollupToken, `rollupInFlight, `activeRollupJobId, `activeRollupCancelToken
      ensures Paired() && Rollup() == R.CancelActive(old(Rollup())) && deletes == R.DeletedBy(old(Rollup()))
      ensures deletes == old(Watched()) && activeRollupJobId.None?
    {
      rollupToken := rollupToken + 1;
      rollupInFlight := None;
      deletes := [];
      if activeRollupJobId.Some? {
        deletes := [R.Pair(activeRollupJobId.value, activeRollupCancelToken.value)];
        activeRollupJobId, activeRollupCancelToken := None, None;
      }
    }

    // The part of navigate that runs before its first wait.
    method Navigate(path: string, query: string, fetched: nat)
      returns (deletes: seq<R.Pair>, token: nat, promise: nat)
      requires Valid() && fetched !in listings.promises
      modifies this
      ensures Valid() && Awaits(token, promise)
      ensures R.Step(old(rollups), R.Navigate(path)) == Some(rollups)
      ensures rollups.deleted == old(rollups).deleted + deletes
      ensures L.Step(old(listings), L.Show(L.Key(NormalizePrefix(path), query), fetched)) == Some(listings)
      ensures this.path == NormalizePrefix(path) && this.query == query && page == 1
      ensures deletes == old(Watched()) && activeRollupJobId.None? && rollupInFlight.None? && panel.None?
      ensures token == old(listingToken) + 1 && promise == fetched
      ensures pageCache == [(L.PageKey(L.Key(this.path, query), 1), fetched)]
    {
      hide R.Inv, L.Inv, R.Step, L.Step;
      deletes := Depart(path);
      token, promise := ShowFirstPage(query, fetched);
    }

    // Go to another path: the rollup's part.
    method Depart(path: string) returns (deletes: seq<R.Pair>)
      requires Paired() && rollups.v == Rollup() && R.Inv(rollups)
      modifies `path, `rollupToken, `rollupInFlight, `activeRollupJobId, `activeRollupCancelToken, `panel, `rollups
      ensures Paired() && rollups.v == Rollup() && R.Inv(rollups) && this.path == NormalizePrefix(path)
      ensures R.Step(old(rollups), R.Navigate(path)) == Some(rollups)
      ensures rollups.deleted == old(rollups).deleted + deletes
      ensures deletes == old(Watched()) && activeRollupJobId.None? && rollupInFlight.None? && panel.None?
    {
      hide R.Inv;
      R.StepInv(rollups, R.Navigate(path));
      rollups := R.Step(rollups, R.Navigate(path)).value;
      this.path := NormalizePrefix(path);
      deletes := CancelActiveRollup();
      panel := None;
    }

    // ---- listings -------------------------------------------------------------------------

    // The first page for the current path under another sort, filter or page size.
    method ShowFirstPage(query: string, fetched: nat) returns (token: nat, promise: nat)
      requires listings.v == Listing().(key := listings.v.key) && L.Inv(listings) && fetched !in listings.promises
      modifies `query, `page, `pageCache, `listingToken, `listings
      ensures listings.v == Listing() && L.Inv(listings) && Awaits(token, promise)
      ensures L.Step(old(listings), L.Show(L.Key(path, query), fetched)) == Some(listings)
      ensures this.query == query && page == 1 && token == old(listingToken) + 1 && promise == fetched
      ensures pageCache == [(L.PageKey(L.Key(path, query), 1), fetched)]
    {
      hide L.Inv, L.BeginLoad;
      L.StepInv(listings, L.Show(L.Key(path, query), fetched));
      this.query, page := query, 1;
      pageCache := [];
      listings := listings.(v := Listing());
      token, promise := BeginLoad(1, fetched);
    }

    // Another sort, filter or page size: back to the first page.
    method RefreshListing(query: string, fetched: nat) returns (token: nat, promise: nat)
      requires Valid() && fetched !in listings.promises
      modifies `query, `page, `pageCache, `listingToken, `listings
      ensures Valid() && Awaits(token, promise)
      ensures L.Step(old(listings), L.Show(L.Key(path, query), fetched)) == Some(listings)
      ensures this.query == query && page == 1 && token == old(listingToken) + 1 && promise == fetched
      ensures pageCache == [(L.PageKey(L.Key(path, query), 1), fetched)]
    {
      hide R.Inv, L.Inv, L.Step;
      token, promise := ShowFirstPage(query, fetched);
    }

    // Another page of the same listing.
    method TurnPage(page: int, fetched: nat) returns (token: nat, promise: nat)
      requires Valid() && fetched !in listings.promises
      modifies `pageCache, `listingToken, `listings
      ensures Valid() && Awaits(token, promise)
      ensures L.Step(old(listings), L.Turn(page, fetched)) == Some(listings)
      ensures token == old(listingToken) + 1 && Fetched(old(pageCache), page, fetched, promise)
    {
      hide R.Inv, L.Inv, L.BeginLoad;
      L.StepInv(listings, L.Turn(page, fetched));
      token, promise := BeginLoad(page, fetched);
    }

    // A page nobody asked for yet.
    method PrefetchPage(page: int, fetched: nat) returns (promise: nat)
      requires Valid() && fetched !in listings.promises
      modifies `pageCache, `listings
      ensures Valid()
      ensures L.Step(old(listings), L.Prefetch(page, fetched)) == Some(listings)
      ensures Fetched(old(pageCache), page, fetched, promise)
    {
      hide R.Inv, L.Inv, L.Fetch;
      L.StepInv(listings, L.Prefetch(page, fetched));
      promise := FetchPage(page, fetched);
    }

    // A cached promise, or a new one kept for later callers within the bound.
    method FetchPage(page: int, fetched: nat) returns (promise: nat)
      requires listings.v == Listing() && fetched !in listings.promises
      modifies `pageCache, `listings
      ensures (listings, promise) == L.Fetch(old(listings), page, fetched) && listings.v == Listing()
      ensures Fetched(old(pageCache), page, fetched, promise)
    {
      hide L.Find;
      var k := L.PageKey(L.Key(path, query), page);
      L.FindInCache(pageCache, k);
      listings := L.Fetch(listings, page, fetched).0;
      match L.Find(pageCache, k) {
        case Some(p) => promise := p;
        case None =>
          Remember(k, fetched);
          promise := fetched;
      }
    }

    // Keep a promise, dropping the oldest beyond the bound.
    method Remember(k: L.PageKey, promise: nat)
      modifies `pageCache
      ensures pageCache == L.Insert(old(pageCache), k, promise)
    {
      pageCache := pageCache + [(k, promise)];
      ghost var full := pageCache;
      while |pageCache| > L.PAGE_CACHE_MAX
        invariant |pageCache| <= |full| && pageCache == full[|full| - |pageCache|..]
        invariant |pageCache| >= L.PAGE_CACHE_MAX || pageCache == full
        decreases |pageCache|
      {
        DropFirst(full, |pageCache|);
        pageCache := pageCache[1..];
      }
    }

    // loadPage up to its wait.
    method BeginLoad(page: int, fetched: nat) returns (token: nat, promise: nat)
      requires listings.v == Listing() && fetched !in listings.promises
      modifies `pageCache, `listingToken, `listings
      ensures listings == L.BeginLoad(old(listings), page, fetched) && listings.v == Listing()
      ensures Awaits(token, promise) && token == old(listingToken) + 1
      ensures Fetched(old(pageCache), page, fetched, promise)
    {
      hide L.Fetch;
      listingToken := listingToken + 1;
      token := listingToken;
      ghost var key := listings.v.key;
      listings := listings.(v := Listing());
      L.FetchKeepsRest(listings, page, fetched);
      promise := FetchPage(page, fetched);
      listings := listings.(loads := listings.loads[token := L.Load(key, promise, None)]);
    }

    // A request is answered or fails; a failed one is forgotten, to be sent again.
    method Settled(k: L.PageKey, promise: nat, answer: Option<int>)
      requires Valid() && promise in listings.promises && listings.promises[promise] == L.Promise(k, None)
      modifies `pageCache, `listings
      ensures Valid() && L.Step(old(listings), L.Settle(promise, answer)) == Some(listings)
      ensures answer.Some? ==> pageCache == old(pageCache)
      ensures answer.None? ==> forall c :: c in pageCache <==> c in old(pageCache) && c != (k, promise)
    {
      L.Forgets(listings, k, promise);
      hide R.Inv, L.Inv, L.Find, L.Drop;
      L.StepInv(listings, L.Settle(promise, answer));
      listings := L.Step(listings, L.Settle(promise, answer)).value;
      if answer.None? && L.Find(pageCache, k) == Some(promise) {
        pageCache := L.Drop(pageCache, k);
      }
    }

    // loadPage after its wait.
    method EndLoad(token: nat, expected: L.Key, promise: nat, answer: Option<int>) returns (r: L.Result)
      requires Valid() && token in listings.loads && listings.loads[token] == L.Load(expected, promise, None)
      requires promise in listings.promises && listings.promises[promise].outcome == Some(answer)
      modifies `listing, `page, `listings
      ensures Valid() && L.Step(old(listings), L.Resume(token)) == Some(listings)
      ensures listings.loads[token].result == Some(r)
      ensures answer.Some? && token == listingToken && expected == L.Key(path, query) ==>
        r == L.Ok(answer.value) && listing == Some(L.Shown(expected, answer.value)) && page == answer.value
      ensures r == L.Failed <==> answer.None? && token == listingToken
      ensures r == L.Failed ==> listing == None && page == old(page)
      ensures r == L.Superseded ==> (listing, page) == (old(listing), old(page))
    {
      hide R.Inv, L.Inv;
      L.StepInv(listings, L.Resume(token));
      listings := L.Step(listings, L.Resume(token)).value;
      match answer {
        case None =>
          if token != listingToken {
            return L.Superseded;
          }
          listing := None;
          r := L.Failed;
        case Some(n) =>
          if token != listingToken || expected != L.Key(path, query) {
            return L.Superseded;
          }
          listing := Some(L.Shown(expected, n));
          page := n;
          r := L.Ok(n);
      }
    }

    // ---- rollups --------------------------------------------------------------------------

    // The rest of navigate, and loadRollup up to its wait; nothing when a newer navigation
    // owns the page or the listing failed.
    method LoadRollup(target: string, listed: L.Result) returns (token: Option<nat>, deletes: seq<R.Pair>)
      requires Valid()
      modifies `rollupToken, `rollupInFlight, `activeRollupJobId, `activeRollupCancelToken, `panel, `rollups
      ensures Valid() && rollups.deleted == old(rollups).deleted + deletes
      ensures token.Some? <==> target == path && !listed.Failed?
      ensures token.None? ==> rollups == old(rollups)
      ensures token.Some? ==>
        R.Step(old(rollups), R.Event.Load(target)) == Some(rollups) && token.value == rollupToken
      ensures token.Some? ==>
        deletes == old(Watched()) && activeRollupJobId.None? && rollupInFlight == Some(path) && panel.None?
      ensures token.None? ==> deletes == [] && Rollup() == old(Rollup())
    {
      hide R.Inv, L.Inv;
      if path != target || listed.Failed? {
        return None, [];
      }
      R.StepInv(rollups, R.Event.Load(target));
      rollups := R.Step(rollups, R.Event.Load(target)).value;
      deletes := CancelActiveRollup();
      rollupToken := rollupToken + 1;
      rollupInFlight := Some(target);
      panel := None;
      token := Some(rollupToken);
    }

    // loadRollup after its wait; `poll` tells whether a poll is scheduled.
    method RollupReplied(token: nat, reply: R.Reply) returns (deletes: seq<R.Pair>, poll: bool)
      requires Valid() && token in rollups.chains && rollups.chains[token].phase.Requesting?
      requires reply.Accepted? ==> reply.pair !in rollups.received
      modifies `rollupInFlight, `activeRollupJobId, `activeRollupCancelToken, `panel, `rollups
      ensures Valid() && R.Step(old(rollups), R.GetReply(token, reply)) == Some(rollups)
      ensures rollups.deleted == old(rollups).deleted + deletes
      ensures poll <==> rollups.chains[token].phase.Sleeping?
      ensures poll <==> token == rollupToken && reply.Accepted?
      ensures deletes == if token != rollupToken && reply.Accepted? then [reply.pair] else []
      ensures if poll
              then activeRollupJobId == Some(reply.pair.job) && activeRollupCancelToken == Some(reply.pair.token)
              else Active() == old(Active())
      ensures if token == rollupToken && !reply.Accepted?
              then panel == Some(token) && rollupInFlight.None?
              else (panel, rollupInFlight) == (old(panel), old(rollupInFlight))
    {
      hide R.Inv, L.Inv;
      R.StepInv(rollups, R.GetReply(token, reply));
      rollups := R.Step(rollups, R.GetReply(token, reply)).value;
      deletes, poll := [], false;
      if token != rollupToken {
        if reply.Accepted? {
          deletes := [reply.pair];
        }
        return;
      }
      match reply {
        case Accepted(pair) =>
          activeRollupJobId, activeRollupCancelToken := Some(pair.job), Some(pair.token);
          poll := true;
        case _ =>
          rollupInFlight, panel := None, Some(token);
      }
    }

    // The timer of a poll; whether it asks for the status.
    method PollDue(token: nat) returns (ask: bool)
      requires Valid() && token in rollups.chains && rollups.chains[token].phase.Sleeping?
      modifies `rollups
      ensures Valid() && R.Step(old(rollups), R.Timer(token)) == Some(rollups)
      ensures ask <==> rollups.chains[token].phase.Polling?
      ensures ask <==> token == rollupToken
    {
      hide R.Inv, L.Inv;
      R.StepInv(rollups, R.Timer(token));
      rollups := R.Step(rollups, R.Timer(token)).value;
      ask := token == rollupToken;
    }

    // poll after its wait; `again` tells whether another is scheduled.
    method Polled(token: nat, jobId: string, status: R.Status) returns (again: bool)
      requires Valid() && token in rollups.chains && rollups.chains[token].phase.Polling?
      requires rollups.chains[token].phase.pair.job == jobId
      modifies `rollupInFlight, `activeRollupJobId, `activeRollupCancelToken, `panel, `rollups
      ensures Valid() && R.Step(old(rollups), R.GetStatus(token, status)) == Some(rollups)
      ensures again <==> rollups.chains[token].phase.Sleeping?
      ensures again <==> token == rollupToken && status.Progress?
      ensures panel == if token == rollupToken then Some(token) else old(panel)
      ensures rollupInFlight == if token == rollupToken && !status.Progress? then None else old(rollupInFlight)
      ensures Active() == if token == rollupToken && (status.Done? || status.Ended?)
                             && old(activeRollupJobId) == Some(jobId) then None else old(Active())
    {
      hide R.Inv, L.Inv, R.Step;
      R.StatusStep(rollups, token, status);
      R.StepInv(rollups, R.GetStatus(token, status));
      rollups := R.Step(rollups, R.GetStatus(token, status)).value;
      again := false;
      if token != rollupToken {
        return;
      }
      panel := Some(token);
      match status {
        case Progress => again := true;
        case Unreachable => rollupInFlight := None;
        case _ =>
          if activeRollupJobId == Some(jobId) {
            activeRollupJobId, activeRollupCancelToken := None, None;
          }
          rollupInFlight := None;
      }
    }
  }

  lemma DropFirst<T>(full: seq<T>, n: nat)
    requires 0 < n <= |full|
    ensures full[|full| - n..][1..] == full[|full| - (n - 1)..]
  {
  }
}
