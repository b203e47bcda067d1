# Catwalk in Dafny

Catwalk is a browser over a snapshot-indexed metadata table. This project models its five
intricate parts and proves what users and maintainers rely on:

1. **Rollup jobs** (`JobProtocol`, `JobInvariant`, `JobHistory`, `JobShutdown`, `JobMoves`,
   `JobManager`).
   Every lock-held region, every unlocked write of a worker closure or of a done-callback,
   and every client call is one step; a run is any interleaving of steps. One inductive
   invariant carries the theorems about watchers, cancellation, terminal transitions, slots
   and shutdown. The class `JobManager` is the program's code over mutable job records; each
   method is proved to be a run of the step system from its old state to its new one, the
   closure that a pool thread executes included, whatever clients do meanwhile.
2. **Rollup aggregation** (`Paths`, `Folding`, `FolderFacts`, `Rollup`, `Pipeline`,
   `RollupSpec`, `RollupService`). Per-batch grouping, a bounded set of futures that complete in any order,
   merging under a cap, seeding from a limited query, and the cache of results, all against
   one reference: a single fold over the rows of the snapshot, whose numbers are then described
   row by row.
3. **Listings and their cache** (`TimedCache`, `Cache`, `ListingSpec`, `Sorting`, `Listings`
   for the code; `ListingProtocol`, `ListingInvariant`, `ListingFrame`, `ListingRuns`,
   `ListingDrain` for the concurrent protocol; `ListingStages`, `ListingCalls` for the two
   together). The cache is specified by its history of operations. The protocol lets
   interactive requests, prefetches and warm refreshes race over the cache, the single-flight
   registry, the prefetch registry and the gate of query permits, with arbitrary evictions
   and epoch changes. What it lets a query answer is what `Listings.QueryListing` guarantees, and a call of the
   service that nobody interferes with is a run of it.
4. **The cache warmer** (`Warmer`, `WarmTree`): the capped, depth-limited, level-by-level walk,
   and what it visits of the snapshot.
5. **The browser client** (`RollupClient`, `ListingClient`, `AppClient`): generation tokens and
   job ownership over all orders of asynchronous completions, as two step systems; and the
   module variables that event handlers and continuations update, each such piece proved to
   be a step of them.

`Wrappers`, `Sets` and `Maps` hold the stock definitions the modules share.

Nondeterminism is explicit: fresh ids and tokens, clock readings, what a scan or a query
delivers and in which batches, which futures are done first, which epoch is read and what the
server answers are all inputs or events. Clocks are `real`, sums are unbounded integers.
Backend queries are constrained only by what they ask for: rows of one directory or subtree in
any order and any batching, or some of them before a failure; at most a given number of
distinct child names. Where a method's result depends on a library's choice (`wait`,
`group_by`, dictionary order), callers can use only what the `ensures` say.

Two properties one might expect do not hold in the code and are not claimed. Normalising a path
does not make it canonical when empty components remain inside it: `a//b` becomes `/a//b/`
(`Paths.NormalizeKeepsInnerSlashes`), and `Paths.NormalizeCanonical` gives the exact condition. A filtered listing cannot be derived from a truncated one
(`ListingSpec.TruncatedLosesRows` is the counterexample behind that branch of the code).

## Model

| member | source | states |
|---|---|---|
| JobInvariant.StepInv | catwalk/jobs.py:62-190 | every lock-held region and every unlocked write keeps the protocol invariant |
| JobInvariant.RunInv | catwalk/jobs.py:53-190 | the invariant holds after any interleaving from an empty manager |
| JobHistory.WatchersExact | catwalk/jobs.py:69-89 | a job's watchers are exactly the tokens issued for it and not yet detached, whatever the interleaving |
| JobHistory.CancelHasCause | catwalk/jobs.py:145-166 | the cancel flag is set only by a forced cancel or once no watcher is left |
| JobHistory.OnlyLastWatcherCancels | catwalk/jobs.py:65-67 | without a forced cancel a job is doomed if and only if every token ever issued for it was detached, so no client can kill a scan another still watches |
| JobHistory.EndsOnce | catwalk/jobs.py:115-138 | terminal transitions by the worker and by the done-callback together number exactly one for a terminal job and none for a live one |
| JobHistory.OutcomeIsFinal | catwalk/jobs.py:107-137 | once stamped, result, error and finish time never change in any later state, nor does a terminal status |
| JobHistory.ResultHasCause | catwalk/jobs.py:103-106 | a stored result is a value the function returned and for which the cancel flag was clear at the check that followed |
| JobHistory.DoneMeansReturned | catwalk/jobs.py:99-118 | a job that is done carries a result and no error, passed the post-run check, and was ended by its worker only |
| JobHistory.NeverStarted | catwalk/jobs.py:96-98 | a job whose run closure has not begun took no step of it in the whole run |
| JobHistory.CallbackEndsUnstarted | catwalk/jobs.py:131-137 | the done-callback ends only jobs revoked while queued |
| JobHistory.CancelledWhileQueuedNeverRan | catwalk/jobs.py:131-137 | such a job never invoked its function |
| JobHistory.SubmissionsShareTheLiveJob | catwalk/jobs.py:74-89 | an open, undoomed job is joined by every submission of its key, and a submission joins nothing else; a doomed job is never joined |
| JobHistory.SlotsConserved | catwalk/jobs.py:59 | free slots plus jobs whose callback has not returned theirs is always max_workers + max_queue, which bounds the live jobs |
| JobHistory.ReleaseIsBalanced | catwalk/jobs.py:131-138 | a release in a reachable state always finds the semaphore below its bound |
| JobShutdown.CloseLoopDooms | catwalk/jobs.py:172-178 | once close has set its flag and emptied its cancel list, every open job is cancel-requested and every later submission is refused |
| JobShutdown.DrainStep | catwalk/jobs.py:91-118 | from then on no step admits a job and every worker or callback step spends a finite budget |
| JobShutdown.DrainIsBounded | catwalk/jobs.py:172-178 | the number of worker and callback steps after shutdown is bounded by the budget left |
| JobShutdown.DrainProgresses | catwalk/jobs.py:172-178 | while a job is unsettled some worker or callback step is enabled |
| JobShutdown.ShutdownDrains | catwalk/jobs.py:172-178 | a run that can take no more such steps has every job terminal and every slot returned |
| JobManager.Job.Check | catwalk/jobs.py:101-105 | before and after the scan the flag is read after whatever clients did: set, the closure is on its way to end cancelled |
| JobManager.Job.Progress | catwalk/jobs.py:91-94 | a progress call stops the scan exactly when it sees the cancel flag, and otherwise records its row count |
| JobManager.Job.Conclude | catwalk/jobs.py:104-106 | a returned value is kept exactly when the flag is clear at the check that follows |
| JobManager.Job.Settle | catwalk/jobs.py:107-118 | error, finish time, final status and event are written in this order |
| JobManager.Job.Run | catwalk/jobs.py:96-118 | with clients joining and detaching before each read of the flag, the closure's own steps are exactly: start, check, the scan's reports in order (all of them, or up to the one that found the flag set), what it returned or raised with the check after it, then fault, time, status and event; it ends done, failed or cancelled with the matching result or error, and a job cancelled beforehand never reports progress |
| JobMoves.MovesKeepJob | catwalk/jobs.py:96-118 | the protocol's invariant of a job survives any such run with any client calls in between |
| JobMoves.MovesLift | catwalk/jobs.py:62-118 | any such sequence of the closure's steps and client calls on one job is a run of the whole manager that changes nothing but that job and the ids handed out |
| JobMoves.ClosureLifts | catwalk/jobs.py:96-127 | so is a closure from the thread that picks it up to the result of its future |
| JobManager.Job.End | catwalk/jobs.py:131-137 | the done-callback's effect is the callback's steps up to its release: a job still live there had been revoked while queued, and ends cancelled without its closure having begun; of any other job nothing that tells its outcome changes; either way the job is terminal and announced |
| JobManager.JobManager.PruneLocked | catwalk/jobs.py:180-190 | keeps exactly the jobs that are unfinished or finished at most 300 seconds ago, and unlinks a key only from a job dropped, never a newer one |
| JobManager.JobManager.Submit | catwalk/jobs.py:62-129 | refused exactly when closed; otherwise it adds its token to the queued or running, unflagged job its key leads to and takes no slot, or, with no such job, is refused without a free slot, gives the slot back when the executor refuses, and else starts a job of its own; its effect is a run of the step system |
| JobManager.JobManager.Get | catwalk/jobs.py:140-143 | returns a job exactly when it is in the table and unfinished or finished at most 300 seconds ago |
| JobManager.JobManager.Cancel | catwalk/jobs.py:145-166 | a job at work loses the watcher; with none left, or by force, it is flagged and a future still queued is revoked; an ended job and all others stay as they were; as a run of the step system |
| JobManager.JobManager.Close | catwalk/jobs.py:172-178 | closes, flags every job at work, revokes the futures still queued, leaves ended jobs as they were and the manager draining |
| JobManager.JobManager.FutureDone | catwalk/jobs.py:131-138 | a job still at work there had been revoked while queued and ends cancelled, any other keeps its outcome; one slot returns, within the bound |
| JobManager.JobManager.Execute | catwalk/jobs.py:96-127 | a pool thread picks a queued job up, runs its closure and resolves its future: a run of the step system made of the pick, the steps of the closure in their order, and submissions that join and cancel calls for this job in between, ending in a valid manager; it assumes that clients who join bring new tokens and do so before the manager is closed |
| Paths.JoinOfSplit | catwalk/catalog.py:98-101 | joining the pieces of a split gives the string back |
| Paths.SplitOfJoin | catwalk/catalog.py:98-101 | splitting a join of slash-free pieces gives the pieces back |
| Paths.PrefixIsAncestor | catwalk/catalog.py:481 | on canonical paths the string prefix test holds if and only if the directory is the same or a descendant, component by component |
| Paths.GroupKeyMeaning | catwalk/catalog.py:98-101 | the key of a file is the join of its next components, at most depth of them, and splits back to them; files in the directory itself get a dot |
| Paths.GroupKeyTruncates | catwalk/catalog.py:98-101 | for all strings, truncating a key at one depth gives the key at any smaller depth |
| Paths.NormalizeIdempotent | catwalk/catalog.py:84-87 | normalising twice is normalising once |
| Paths.NormalizeCanonical | catwalk/catalog.py:84-87 | the result is the canonical path of the components named if and only if no empty component is left inside the stripped path |
| Paths.NormalizeKeepsInnerSlashes | catwalk/catalog.py:84-87 | an input whose normal form is not canonical: a doubled slash inside the path stays |
| Paths.NormalizeFixes | catwalk/catalog.py:84-87 | canonical paths are fixed points |
| Folding.MergeAssociates | catwalk/catalog.py:104-136 | adding folder statistics is associative, null being no time at all |
| Folding.MergeCommutes | catwalk/catalog.py:104-136 | and commutative |
| Folding.MergeZero | catwalk/catalog.py:104-136 | with the empty statistics as identity |
| Folding.FoldAt | catwalk/catalog.py:185-197 | what a fold leaves under each key is what was there merged with everything in the stream that carries the key |
| Folding.FoldMerges | catwalk/catalog.py:205-218 | folding a stream into a dictionary is merging in the dictionary of the stream |
| Folding.PermutationSameGroups | catwalk/catalog.py:139-218 | the groups of a stream do not depend on the order of its rows |
| Folding.SumCountsRows | catwalk/catalog.py:174-178 | every row counts as one file, null size or not |
| Folding.TotalShortens | catwalk/catalog.py:98-101 | the total of a truncated key is the total over the keys that truncate to it |
| FolderFacts.SumDescribes | catwalk/catalog.py:104-136 | what a stream adds up to, row by row: as many files as rows, sizes added with null as nothing, and per time column no time exactly when no row has one, else the time of some row with none later |
| FolderFacts.TotalDescribes | catwalk/catalog.py:185-197 | likewise for the rows of one key |
| FolderFacts.GroupMapDescribes | catwalk/catalog.py:139-202 | the reference fold has a group exactly for each key that a row has, described by the rows of that key |
| FolderFacts.KeyedCount | catwalk/catalog.py:98-101 | the rows of a key are the rows whose group key it is, each as often as it was there |
| Rollup.FolderStats.Add | catwalk/catalog.py:124-136 | adding to a folder adds counts and sizes, with nulls as nothing, and keeps the later of two times, or the only one |
| Rollup.Groups.Fold | catwalk/catalog.py:185-197 | adds to a key's group, opening it unless that would exceed a non-zero cap; refused, it changes nothing |
| Rollup.ColumnFolds | catwalk/catalog.py:168-184 | counting all rows while skipping nulls in sums and maxima gives exactly the fold of the rows |
| Rollup.GroupByMeans | catwalk/catalog.py:158-184 | the summaries of a batch stand for its rows: same keys, same totals |
| Rollup.AggregateBatch | catwalk/catalog.py:155-197 | one batch folds into the groups, or is refused if and only if its keys do not fit |
| Rollup.AggregateReader | catwalk/catalog.py:139-202 | a stream folds into the groups as one sequential fold would, counts its rows, and is rejected if and only if it has more distinct keys than the cap, whatever the batching |
| Pipeline.MergeGroups | catwalk/catalog.py:205-218 | merges a partial dictionary key by key in whatever order it lists its keys; rejected if and only if the union does not fit |
| Pipeline.GatheredInAnyOrder | catwalk/catalog.py:470-475 | whatever order batches were gathered in, the groups and the row count are those of one fold over the stream |
| Pipeline.PartOfKeys | catwalk/catalog.py:205-218 | a cap exceeded by some gathered batches is exceeded by the whole stream |
| Pipeline.Collect | catwalk/catalog.py:470-475 | collecting finished futures gathers their batches, or stops because the batches gathered are too wide |
| Pipeline.Feed | catwalk/catalog.py:487-498 | feeding keeps at most twice the thread count of futures pending and loses no batch |
| Pipeline.Drain | catwalk/catalog.py:499-501 | the drain loop terminates with every batch gathered or a justified rejection |
| Pipeline.RollupGroups | catwalk/catalog.py:441-503 | the pipeline returns the group map and row total of one sequential fold, with a group for each key of a row described by the rows of that key; it rejects exactly the streams with more keys than a non-zero cap, and never has more than twice the thread count pending |
| RollupSpec.Conserves | catwalk/catalog.py:1040-1044 | the children of a rollup add up to its totals, and rows scanned equals the total file count |
| RollupSpec.RollupReports | catwalk/catalog.py:1005-1021 | a rollup in terms of the rows: its children are the keys of the files in the subtree and the immediate child directories, the numbers of each describe the files with its key, and totals and row count describe all files of the subtree |
| RollupSpec.GroupNamesAre | catwalk/catalog.py:970-981 | the groups counted against the cap are those keys and directories |
| RollupSpec.FilesCount | catwalk/catalog.py:481 | the files of a subtree are those whose parent starts with its prefix, each as often as the snapshot has it |
| RollupSpec.DepthsAgree | catwalk/catalog.py:98-101 | truncating the keys of a deeper rollup and merging again gives exactly the groups of a shallower one, seeds included |
| RollupSpec.Pigeonhole | catwalk/catalog.py:970-981 | one name more than the cap decides whether all child names fit together with the file groups, and when they do the query returned all of them |
| RollupService.Seed | catwalk/catalog.py:974-981 | seeding succeeds if and only if the union of groups and names fits, adds each name once and changes no total |
| RollupService.SortChildren | catwalk/catalog.py:1008 | the same children, each once, by descending size |
| RollupService.FoldTotals | catwalk/catalog.py:1040-1044 | the totals are the sum over all groups |
| RollupService.Aggregate | catwalk/catalog.py:947-1021 | whichever reader is used and whatever the schedule, batching and names returned, the outcome is the rollup of the snapshot, each child and the totals describing their rows, if all groups fit and a rejection if not; when no query fails, it succeeds if and only if file groups and all child directories together fit the cap |
| RollupService.RollupService.Cached | catwalk/catalog.py:926-928 | exactly what the cache holds live under the current epoch, which is the rollup of that epoch, path and depth and describes its rows |
| RollupService.RollupService.Compute | catwalk/catalog.py:930-1025 | depth out of range and a forbidden root are refused in that order; otherwise the outcome is that of the epoch's snapshot, describes its rows and is cached under that epoch only when computed, and without query failures it is a rollup if and only if the snapshot's groups fit the cap |
| RollupService.RollupService.PublicResult | catwalk/catalog.py:1027-1037 | returns exactly as many of the largest children as the limit asked for, or the default, and the group cap allow, and says whether any were left out |
| TimedCache.LongestSuffix | catwalk/cache.py:94-98 | eviction keeps the longest most recently used suffix whose cost is at most the bound, and everything when the bound is zero |
| TimedCache.NewestStays | catwalk/cache.py:88-98 | a value of at most the bound is never evicted to make room for itself |
| TimedCache.SurvivesPut | catwalk/cache.py:94-98 | under a bound an older entry survives a put if and only if its cost, that of everything used since and that of the new value together are at most the bound |
| TimedCache.CacheIsFaithful | catwalk/cache.py:42-114 | after any history entries are in order of last use, each is the latest uninvalidated put of its key with that put's expiry, none twice, and together they fit the byte bound |
| TimedCache.TimedMap | catwalk/cache.py:42-114 | under a non-decreasing clock a key has a live entry if and only if it was put, not invalidated since, is younger than the TTL and was not crowded out |
| Cache.TTLCache.Sound | catwalk/cache.py:27-46 | in every state the byte count is the sum of the entry costs and at most a non-zero bound, and the table is what its history prescribes |
| Cache.TTLCache.Get | catwalk/cache.py:48-62 | returns only the latest put of the key, not invalidated and younger than the TTL, and makes it the most recently used; the other entries stay; a miss has one of the listed causes |
| Cache.TTLCache.ExpiresIn | catwalk/cache.py:64-80 | the exact life left of the latest put; no key's recency changes |
| Cache.TTLCache.Put | catwalk/cache.py:82-99 | caches exactly the values of at most the bound, any without one; of the other entries that have not expired and the new one it keeps the longest most recently used end whose cost is at most the bound; an oversized value only removes the old one |
| Cache.TTLCache.PruneExpired | catwalk/cache.py:42-46 | keeps exactly the entries whose expiry lies ahead, and the byte count exact |
| Cache.TTLCache.Invalidate | catwalk/cache.py:106-114 | forgets exactly one key or everything and keeps the byte count exact |
| Cache.TTLCache.Begin | catwalk/cache.py:126-138 | a hit, the flight already registered for the key, or a fresh flight that only this caller leads |
| Cache.TTLCache.Finish | catwalk/cache.py:139-150 | clears and resolves the leader's flight with its value or its error; only a value is cached |
| ListingSpec.SelectTwice | catwalk/catalog.py:638-649 | filtering by type and then by name is filtering by both |
| ListingSpec.Selected | catwalk/catalog.py:638-649 | filtering keeps each entry of the type asked for whose name has the part asked for somewhere in it, as often as it was there, and no other |
| ListingSpec.ContainsMeans | catwalk/catalog.py:408-421 | the name filter holds exactly when the part occurs at some position of the name |
| ListingSpec.TypesPartition | catwalk/catalog.py:784-796 | directories, files and other entries of a table add up to its rows |
| ListingSpec.DerivedIsQueried | catwalk/catalog.py:638-652 | a filtered listing taken from the complete unfiltered one is what the pushed-down query would say |
| ListingSpec.TruncatedLosesRows | catwalk/catalog.py:640-643 | a concrete directory where deriving from a truncated listing would be wrong |
| Sorting.StrictTotalOrder | catwalk/catalog.py:742-747 | the order asked for, on the fields of the entries, is irreflexive, transitive and total on distinct names |
| Sorting.BeforeMeans | catwalk/catalog.py:742-747 | the comparison of sort columns is the order on the fields: sizes, times and owners not decreasing, or not increasing when descending, nulls after values in either direction, and among equals directories first, then by name ascending; by name, directories first and names in the direction asked for |
| Sorting.CompareTextMeans | catwalk/catalog.py:748 | texts compare in dictionary order |
| Sorting.SortIsUnique | catwalk/catalog.py:742-747 | a table has only one sort in a given order |
| Sorting.SortBy | catwalk/catalog.py:748 | the result has the rows of the table and every two of them in the order asked for |
| Sorting.PagesCover | catwalk/catalog.py:773-779 | pages one to the last put together are the sorted listing, every row once and in order |
| Sorting.WindowRows | catwalk/catalog.py:779 | a page has the rows from (page - 1) * size on, as many as there are up to the size |
| Sorting.EnoughPages | catwalk/catalog.py:775 | the page count is the least that holds all rows |
| Sorting.ClampPage | catwalk/catalog.py:776 | a page number inside the range is kept, one past the end becomes the last page and one before the start the first |
| Sorting.ClampPageSize | catwalk/catalog.py:590-592 | a page size inside the bounds is kept, a larger one becomes the maximum and a smaller one 20 |
| Listings.Filtered | catwalk/catalog.py:408-421 | filtering batch by batch filters the whole stream and passes on no empty batch |
| Listings.ListDir | catwalk/catalog.py:370-406 | pushed down or filtered here, the rows delivered are exactly those asked for |
| Listings.QueryListing | catwalk/catalog.py:657-710 | a capped query is complete with the same multiset of rows, or holds exactly as many of them as the cap and is truncated exactly when more rows match, whatever the batching |
| Listings.ListingEntry.SortedTable | catwalk/catalog.py:735-751 | the rows in the order asked for on their fields; at most three variants are kept, oldest out first, each a sort of its base table |
| Listings.SamePages | catwalk/catalog.py:735-779 | complete listings of the same rows, however obtained, sort to the same table, so pages stay consistent across eviction and re-querying |
| Listings.ListingService.Compute | catwalk/catalog.py:637-652 | a filtered listing is derived exactly when the unfiltered one is visible and complete, and otherwise queried; either way it is what a direct capped query of the snapshot says |
| Listings.ListingService.LeadListing | catwalk/cache.py:139-150 | a leader's entry is cached under its key and resolves the flight; a failure resolves it with the error and puts nothing; the operations on the cache are exactly the look for the unfiltered listing and the put |
| Listings.ListingService.BaseListing | catwalk/catalog.py:597-655 | served from the cache exactly when the key has a live entry, otherwise joined or, when no flight is registered, computed, and derived whenever the complete unfiltered listing is seen; the entry agrees with the snapshot named by its key, the operations on the cache are exactly those of these branches, and no flight is left behind |
| Listings.ListingService.ListPage | catwalk/catalog.py:753-796 | the rows of the clamped page of the listing in the order asked for on their fields, with the number of directories, files and other entries of the whole listing, truncated exactly when more rows match than the cap |
| Listings.TypeCounts | catwalk/catalog.py:877-881 | counts the rows that the directory filter and the file filter would keep |
| Listings.ListingService.ListingTable | catwalk/catalog.py:837-853 | the whole sorted listing for export |
| Listings.ListingService.WarmListing | catwalk/catalog.py:712-733 | returns the child directories of a coherent listing, the cached one when it will live long enough, and leaves it cached with at least the life asked for when it fits and the TTL allows |
| Listings.ChildrenSeen | catwalk/catalog.py:731-733 | the names returned are all child directories of a complete listing, and only real ones of a truncated one |
| ListingCalls.LookedUp | catwalk/cache.py:48-80 | a lookup keeps the entry of its key exactly when it is still live and makes no other |
| ListingCalls.PutIn | catwalk/cache.py:82-99 | a put makes no other entry and makes its own exactly when it fits the bound |
| ListingCalls.StandsAtFirst | catwalk/catalog.py:566-584 | a new service is described by the protocol's initial state |
| ListingCalls.Request | catwalk/catalog.py:597-655 | a request that nobody interferes with is a run of the listing protocol, made of its own steps and evictions, from its arrival to its answer, or to the wait for the flight of another leader; the protocol state it ends in describes the cache and the flights the service then holds |
| ListingCalls.Refresh | catwalk/catalog.py:712-733 | likewise a refresh by the warmer, which returns the directories of the listing the run ends with |
| ListingInvariant.StepInv | catwalk/catalog.py:597-733 | every step of interactive, prefetch and warm requests, eviction, gate and epoch change keeps the invariant |
| ListingInvariant.RunInv | catwalk/catalog.py:566-853 | the invariant holds after any interleaving |
| ListingRuns.AnswersAreCoherent | catwalk/catalog.py:597-733 | over every run, each cached entry and each answer equals a direct capped query of the snapshot named by its key |
| ListingRuns.OneComputationPerKey | catwalk/cache.py:126-150 | at most one computation runs for a key |
| ListingRuns.FollowersGetTheLeadersOutcome | catwalk/cache.py:137-150 | whoever led or followed a flight ends with its outcome, which is the leader's value or error |
| ListingRuns.OutcomeIsFinal | catwalk/cache.py:137-150 | a flight's outcome is set once |
| ListingRuns.NoDeadlock | catwalk/catalog.py:614-689 | waits go only from prefetch to flight to gate to backend, so an unfinished request always leaves some step enabled, prefetch timeouts not counted |
| ListingRuns.GateIsBounded | catwalk/catalog.py:667-689 | over every run, queries and rollups together hold at most the permits of the gate |
| ListingRuns.PoolIsBounded | catwalk/catalog.py:578-582 | over every run, at most two prefetches run at a time |
| ListingRuns.RequestsMoveForward | catwalk/catalog.py:597-710 | every own step of a request raises a bounded rank, so a request ends within a fixed number of its steps |
| ListingDrain.QuietStep | catwalk/catalog.py:597-710 | without new requests, prefetches submitted or rollups no step adds to a finite total of work left, and every advancing step, the start of a prefetch submitted before included, takes from it |
| ListingDrain.RequestsDrain | catwalk/catalog.py:566-853 | after the last arrival only that many advancing steps remain, prefetches still queued for the two pool threads included, and a run can take no more of them if and only if every request is answered, every prefetch ended or cancelled and every permit returned |
| Warmer.Deduplicated | catwalk/warmer.py:101 | the roots, each once |
| Warmer.Expand | catwalk/warmer.py:116-122 | the next frontier is the unseen children of the batch, each once |
| Warmer.LowerLevelsFirst | catwalk/warmer.py:103-122 | a directory is visited only if every directory of lower levels was |
| Warmer.LevelsAreDepths | catwalk/warmer.py:101-122 | the directories within so many levels are exactly those reached from a root by fewer names than that |
| Warmer.PassReaches | catwalk/warmer.py:103-122 | a pass that the cap does not cut short visits exactly the directories reached from a root by at most depth names |
| Warmer.CacheWarmer.RunPass | catwalk/warmer.py:85-132 | walks depth + 1 levels, or as many as precede the stop event, and none for a negative depth; it visits all directories within those levels or as many as the cap allows, each once and no directory before one of a lower level |
| WarmTree.NothingInvented | catwalk/warmer.py:134-139 | whatever listings are truncated or fail, the directories within the levels walked are real ones of the snapshot |
| WarmTree.NothingHidden | catwalk/warmer.py:134-139 | when the listings met are complete they are all of the real ones |
| WarmTree.PassVisitsTheTree | catwalk/warmer.py:85-132 | a pass that meets only complete listings visits as many directories as the cap and the real tree within its levels allow, and exactly those of the tree when the cap is not reached |
| RollupClient.RunInv | catwalk/static/app.js:369-532 | the ownership invariant holds over every order of completions |
| RollupClient.EachJobLetGoOnce | catwalk/static/app.js:369-532 | each job and token received is active, deleted once or seen terminal by its own poll: exactly one of the three |
| RollupClient.DeletesAreOwn | catwalk/static/app.js:369-382 | a DELETE is only ever issued for a job and token the client was handed |
| RollupClient.NavigatingDetaches | catwalk/static/app.js:646-658 | after a navigation every job received so far was seen terminal or has its DELETE issued |
| RollupClient.InFlightIsHonest | catwalk/static/app.js:451-532 | the path in flight is none or the current path, set exactly while the current chain is at work |
| RollupClient.PanelIsCurrent | catwalk/static/app.js:458-532 | what the panel shows was painted by the current chain for the current path |
| RollupClient.StaleChainsAreSilent | catwalk/static/app.js:458-532 | once superseded, a chain stays so in every continuation of the run: whatever reply, timer or status it still gets changes no shared variable and ends it |
| ListingClient.RunInv | catwalk/static/app.js:205-254 | the listing invariant holds over every order of completions |
| ListingClient.TableIsTheLatestLoads | catwalk/static/app.js:224-254 | once the latest load has ended its request was answered and the table shows that answer for the current directory and query, or it failed and the table shows nothing |
| ListingClient.SupersededIsSilent | catwalk/static/app.js:224-236 | a load is superseded exactly when it is not the latest, and then changes no shared variable |
| ListingClient.CacheServesCurrentKey | catwalk/static/app.js:205-222 | cached promises belong to the current directory and query, never failed ones, and stay within the bound |
| AppClient.AppClient.Navigate | catwalk/static/app.js:646-665 | the part of a navigation before its wait shows the first page of the new path, lets go of the active job with exactly one DELETE and clears the panel: the navigation step of the rollup protocol and the first-page step of the listing protocol |
| AppClient.AppClient.RefreshListing | catwalk/static/app.js:686-690 | another sort, filter or page size empties the promise cache and asks for the first page: the protocol's first-page step for the same path |
| AppClient.AppClient.TurnPage | catwalk/static/app.js:708-720 | another page is asked of the promise cache under the next token: the protocol's page-turning step |
| AppClient.AppClient.PrefetchPage | catwalk/static/app.js:248-251 | fetching ahead asks the promise cache and starts no load: the protocol's prefetch step |
| AppClient.AppClient.FetchPage | catwalk/static/app.js:205-215 | a promise cached for the page is shared and nothing else changes; without one a new one is kept with the newest others among fifty; as the protocol has it |
| AppClient.AppClient.BeginLoad | catwalk/static/app.js:224-229 | a new load takes the next token and is recorded, as the protocol has it, as waiting for a promise of the current key |
| AppClient.AppClient.Settled | catwalk/static/app.js:216-221 | an answered request leaves the cache as it is, a failed one takes exactly its own entry out if it is still there: the protocol's settling step |
| AppClient.AppClient.EndLoad | catwalk/static/app.js:224-254 | an answer to the latest load for the current path and query is shown with its page, a failure of the latest load empties the table, and any other load changes nothing: the protocol's resumption of that load |
| AppClient.AppClient.LoadRollup | catwalk/static/app.js:458-463 | exactly when the target is still the current path and the listing did not fail, it lets go of the previous job with its one DELETE and starts a chain for the path; otherwise it changes nothing: the load step of the rollup protocol |
| AppClient.AppClient.RollupReplied | catwalk/static/app.js:464-494 | on the current chain an accepted job is taken over and polled, and any other reply paints the panel and ends the wait; on a superseded one a job is deleted at once and nothing else changes: the protocol's reply step |
| AppClient.AppClient.PollDue | catwalk/static/app.js:494-495 | a timer asks for the status exactly when its chain is still current, and else ends it: the protocol's timer step |
| AppClient.AppClient.Polled | catwalk/static/app.js:496-530 | on the current chain the panel is painted; a job at work is polled again, and an ended or unreachable one ends the wait, releasing the job when it ended; on a superseded one nothing changes: the protocol's status step |
| AppClient.AppClient.OwnsEachJobOnce | catwalk/static/app.js:369-532 | after any of these pieces in any order, each job and token handed to the client is the active one, had exactly one DELETE, or was seen terminal by its own poll: one of the three |
| AppClient.AppClient.ShowsTheCurrentPath | catwalk/static/app.js:451-532 | the path in flight is none or the current one, set exactly while the current chain works, and the panel was painted by the current chain for the current path |
| AppClient.AppClient.ShowsTheLatestLoad | catwalk/static/app.js:224-254 | once the latest load has ended its request was answered and the table shows that answer for the current path and query, or it failed and the table shows nothing |

## Left out

- HTTP endpoints, middleware, CSV streaming, health probes, thread limiters: request plumbing over the services modelled.
- SDK, DNS, VMS, sockets, process management, environment parsing: foreign calls and input checks; the limits that configuration checking guarantees (caps, threads and page sizes at least their minimum) are assumed.
- The live-table fallback when a pinned snapshot is unusable (`catwalk/catalog.py:352-368`): each epoch, and the unpinned state, is taken to name one fixed catalog.
- `catalog_snapshot` in a page: read again after the entry, so it may name another epoch; the model says nothing about it.
- How epochs are obtained and whether they increase: the epoch is an arbitrary input of every request.
- Null names and null element types in catalog rows: names are distinct strings within a directory and types are strings.
- Whitespace stripping of name filters and the parsing of sort and order parameters: the model starts from the parsed values.
- Freshness of ids, watcher and cancel tokens: random ids are taken never to repeat.
- A failing executor hand-over is taken not to have queued the work; functions run by jobs raise only `Exception`.
- Fields used only for display (`started`, `submitted`, `snapshot`, elapsed times), row-count callbacks of scans, log lines and hit, miss and eviction counters.
- Formatting of times and JSON rows; the size estimates of cached values are inputs.
- The order of children with equal sizes: groups are compared as sets of distinct keys with their statistics.
- Which prefetches are submitted for a listing: any directory without one may be prefetched at any time.
- JobManager.JobManager.Execute: the writes of one job's worker are interleaved with client calls for that job only; steps of other jobs in between are in JobProtocol.
- JobManager.JobManager.Submit: the lock-held region is one call; its interleavings with workers are steps of JobProtocol, not of the class.
- Listings.ListingService.BaseListing: one caller at a time; a caller that finds a flight is told to wait, and waiting itself, as well as the wait for a prefetch in flight (`catwalk/catalog.py:614-635`), is in ListingProtocol.
- ListingCalls.Request: calls that others interfere with are in ListingProtocol only; the call itself assumes a free permit and no prefetch of its directory in flight.
- Warmer.CacheWarmer.RunPass: the thread pool inside a level is sequential here; the results of a level are collected in batch order in the program too.
- DOM rendering, tree widget, theme, breadcrumbs and the one-page-ahead prefetch policy in the client.
