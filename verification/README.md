# Athenz syncer: a verified model

k8s-athenz-syncer copies Athenz domains from ZMS into AthenzDomain custom resources of a Kubernetes cluster. A
domain is wanted when a namespace names it, when it is the admin domain, or when a stored domain has a role
trusting it. This project models the controller with its crons and resource writes, its queue's rate limiter, the
conversion between namespaces and domains, the token provider and the certificate reloader, and proves what they
promise over whole runs. `dafny verify dfyconfig.toml` checks everything.

## How the model is laid out

- `Codec`: pkg/util/util.go's string conversions, with Go's greedy left-to-right replacement written out.
- `RateLimiting`: pkg/ratelimiter/ratelimiter.go as a class, proved against the history of its calls.
- `Identity`: pkg/identity/identity.go as a class on an explicit clock.
- `Reloading`: pkg/reloader/reloader.go as a step system of any number of goroutines (every flag operation, lock
  operation, file access and field access is a step), and as a class.
- `Resources`: AthenzDomain values, the comparison and the writes of pkg/cr/cr.go, the MSD filter.
- `Protocol`: the controller as a step system in which everything lags. `WorkerStep` is processNextItem and sync
  (pkg/controller/controller.go:189-297) cut at every shared access, `CronStep` is requestCall
  (pkg/cron/cron.go:97-118), `InnerStep` the handlers, deliveries, start-up and resync, `OutsideStep` whatever ZMS,
  users and namespaces do meanwhile. A run is any interleaving of enabled steps from a fresh start.
- `Consistency`, `NoLostUpdate`, `TrustClosure`, `Garbage`, `Retry`: invariants and bounds of those runs.
- `ControllerObject`: the same code as a class with its loops and early returns. Each method is proved to end exactly
  where the step system ends when nothing interferes (`FinishSync`), or where a schedule of it leads (`Reaches`).
- `Quiescence`, `Termination`, `Convergence`, `OneRound`: the loop with a synchronous cache, for termination and garbage
  collection.
- `Refinement`: every step of that synchronous loop is a schedule of the lagging protocol, and runs continue through it.
- `Arithmetic`, `Sums`, `Options`: what the others share.

## What the surroundings are assumed to do

- ZMS stamps every change of a domain later than all its earlier stamps; its update call names at least every domain
  modified after the tag it is sent and returns no tag from the future; a call for one domain returns that domain, an
  empty list, a 404 or another error, the middle two only for a domain it lacks.
- The API server takes a creation only of what does not exist and an update only of the version it holds; it may
  refuse any request, and may serve one and lose the reply. Other writers may put in, change or delete any resource,
  but store no modification stamp that ZMS has not reached.
- Informers deliver every event of a key, in order, each before the handler call it causes; the cache is as the
  server was when the process started, and every object in it gets a first handler call.
- The queue holds a domain at most once among the delayed and once among the ready items and loses nothing. Items may
  become ready and be taken in any order: no property here depends on the delays or on first-in first-out.
- Slices that are nil and slices that are empty are one sequence, and DeepCopy is the identity; that a resync writes
  nothing when nothing changed rests on this. Roles are not nil, and policies and domain data are present.

## Where the code does not do what one might expect

- pkg/controller/controller.go:250 declares a new `err`. After a ZMS error other than 404 the original error is
  hidden: a domain with a cached resource makes `err.Error()` run on nil and the process panics, one without is
  reported as a success and not retried, although the comment at pkg/controller/controller.go:216 says a 429 is
  retried (`ControllerObject.PanicsExactly`, `Retry.ResourceErrorIsNotRetried`). The error status of line 256 is never
  written. The model records such domains, and those whose retries ran out, in `dropped`.
- A success does not reset the requeue counter, and every enqueue raises it (`Retry.CounterCounts`), so a domain may
  have no retry left when it first fails; and because giving up resets the counter, a second queued copy is retried again. The bound of
  three retries holds exactly when there is no such copy (`Retry.ThreeRetriesExactly`).
- One full resync does not always collect all garbage (`Convergence.OneRoundLeavesAnOrphan`). `OneRound` says when it
  does, from any drained state, and exactly when after namespaces or domains have gone;
  `Convergence.RoundsConverge` says how many rounds always do.
- A cycle of one-way trust among domains that no namespace has can keep the loop busy for ever. Without one it always
  drains, and only then (`Termination.TerminationExactly`).
- The reloader's mtime may go down when a watcher's reload overlaps the constructor's unguarded one
  (`Reloading.OverlapLowersTime`); `Reloading.TimeGrowsExactly` says when it cannot.
- Two namespaces share a domain when an ordinary one is spelled as the domain of a system namespace would be
  (`Codec.SharedDomainExactly`).
- ValidateDomain does not look at the exclusion list: an excluded namespace's domain is kept in step when anything
  else queues it. Only the enqueueing by namespace events and resyncs is skipped
  (`Protocol.ExclusionStopsAtTheHandlers`).

## Model

| member | source | states |
|---|---|---|
| NoLostUpdate.NoUpdateIsLost | pkg/controller/controller.go:189-297 | in every state of every interleaving, every admin or live, non-excluded, canonical namespace domain that ZMS has is current on the server, or queued, or awaits an event, or is in the worker's hands with nothing or the current content fetched, or is still to be reported by ZMS past the cursor, or is recorded as given up, or is the admin domain before start-up queued it |
| NoLostUpdate.CoveredStep | pkg/cron/cron.go:97-118 | that coverage is kept by each single step of ZMS, cron, handlers, deliveries and worker |
| NoLostUpdate.PreparedStep | pkg/controller/controller.go:159-175 | until the worker runs, every such domain is queued or about to be, so the start-up cursor may be set from the cache |
| TrustClosure.TrustIsClosed | pkg/controller/controller.go:273-292 | in every state of every interleaving, a domain trusted by the cached resource of a namespace or of the admin domain and itself not cached is queued or awaits an event, or was lacking from ZMS when the worker last asked for it and is still or will be reported, or its parent is queued, awaits an event or is in hand before that role, or it is in hand itself, or one of the two is given up |
| TrustClosure.LinkedStep | pkg/cron/cron.go:195-202 | each single step keeps this, the last answer of ZMS included; an early, invalid look at the trusted domain loses nothing |
| Garbage.GarbageIsTracked | pkg/cron/cron.go:146-176 | with retained index keys, every cached resource of canonical, non-excluded name is a namespace's or the admin domain's, a key of the trust index, queued or awaiting an event, being judged, or given up |
| Garbage.QuietMeansSynced | pkg/controller/controller.go:146-176 | once nothing is queued, under way or in hand, caches equal servers, every seen anchored domain is current, its trusts are cached unless ZMS lacked them when last asked and has reported none since, and only keys of the trust index can be garbage, all up to what was given up |
| Consistency.RunConsistent | pkg/controller/controller.go:75-95 | in every reachable state cache plus undelivered events agree with the server, tags and stamps stay behind ZMS, the copy the worker compares with is the cached one or the domain is coming again, and a version identifies a content |
| Consistency.NoBlindOverwrite | pkg/cr/cr.go:55-89 | in every run an accepted write replaces exactly the resource that was compared, an accepted creation replaces nothing, and no write replaces an equal content |
| Consistency.IndexStep | pkg/cr/cr.go:164-189 | the trust index covers the cached trusts after every step, and never loses a key when keys are retained |
| Resources.SkipExactly | pkg/cr/cr.go:71-86 | a write is skipped if and only if the cached copy has no error message and equals the data up to the two signatures |
| Resources.WriteIsIdempotent | pkg/cr/cr.go:38-90 | once the cache shows a write, repeating it is skipped whatever the server would do |
| Resources.FilterMeaning | pkg/util/util.go:132-172 | with the option on, the filter keeps every role and policy without an MSD name as often as it was, drops the others, and touches nothing else; with it off it changes nothing; it is idempotent |
| Resources.FilterKeepsOrder | pkg/util/util.go:138-162 | what is kept of a list is what is kept of its parts, in order and as often |
| Resources.DropMSDRules | pkg/util/util.go:132-165 | the two loops compute what the filter keeps |
| Resources.FilterMSDRules | pkg/util/util.go:167-172 | with the option off the data come back untouched; with it on exactly the roles and policies without one of the four MSD prefixes stay |
| Resources.TrustDomainIndex | pkg/cr/cr.go:164-189 | the index keys of a resource are exactly the non-empty trusts of its roles |
| Resources.GetLatestTimestamp | pkg/cr/cr.go:126-148 | the start-up cursor is a whole second not after the latest stored modification and less than a second before it; none for an empty cache |
| ControllerObject.Controller.AddRateLimited | pkg/ratelimiter/ratelimiter.go:48-64 | the domain waits in the queue with its counter one higher and no longer counts as given up; no other domain is touched |
| ControllerObject.Controller.HandleNamespace | pkg/controller/controller.go:119-132 | a name on the exclusion list changes nothing, any other queues its domain; this is the protocol's namespace step |
| ControllerObject.Controller.HandleDomain | pkg/controller/controller.go:135-143 | the handler is the protocol's resource step |
| ControllerObject.Controller.ValidateDomain | pkg/cron/cron.go:195-202 | true if and only if the domain's namespace is cached, it is the admin domain, or some cached resource has a role trusting it |
| ControllerObject.Controller.UpdateCR | pkg/cr/cr.go:71-90 | fails on a nil object; otherwise skips exactly an up-to-date one, and else succeeds exactly when the request is served for the version the server holds |
| ControllerObject.Controller.CreateUpdateAthenzDomain | pkg/cr/cr.go:38-68 | succeeds if and only if the cached resource is up to date, or the request is served and the server has the cached version, or nothing when nothing is cached; a lost reply is an error although the server has changed; it ends where the protocol's write step ends |
| ControllerObject.Controller.RemoveAthenzDomain | pkg/cr/cr.go:108-123 | an uncached domain needs no request and succeeds; a cached one is deleted from the server unless the request is refused or it is not there, and succeeds only if that was served; it ends where the protocol's removal ends |
| ControllerObject.Controller.QueueTrusts | pkg/controller/controller.go:273-292 | queues, in role order, exactly the non-empty trusts other than the domain itself that are not cached, and none unless the domain is a namespace's or the admin domain |
| ControllerObject.NewTrustsMeans | pkg/controller/controller.go:274-289 | those are the trusts in the list that the loop enqueues |
| ControllerObject.TrustsQueued | pkg/controller/controller.go:273-292 | the protocol's role-by-role walk ends in the same queue as the loop |
| ControllerObject.Controller.Sync | pkg/controller/controller.go:232-297 | for every answer of ZMS and of the API server: an invalid domain, a 404 and an empty answer remove; an error that is no resource error is returned; another resource error panics or is swallowed; data are written filtered, with an error for every write that is due and not served, and the new trusts are queued only after success; the end is the very state in which the cut-up protocol ends when nothing interferes |
| ControllerObject.PanicsExactly | pkg/controller/controller.go:250-258 | an uninterrupted sync panics if and only if ZMS answers a valid domain that has a cached resource with an error other than 404 |
| ControllerObject.Controller.ProcessNextItem | pkg/controller/controller.go:189-229 | the item is taken and synced; after a success the queue is as sync left it, after an error the item is queued again while its counter is below 3 and given up with its counter forgotten otherwise; nothing happens after a panic |
| ControllerObject.Controller.AddAdminSystemDomains | pkg/cron/cron.go:182-192 | queues the admin domain, if configured, and then the admin domain, '.' and each system namespace in list order, and nothing else |
| Codec.AdminSystemDomainsListed | pkg/util/util.go:114-121 | that list in full |
| ControllerObject.Controller.RequestCall | pkg/cron/cron.go:97-118 | after an error nothing has changed; otherwise exactly the returned domains that are a cached namespace's, the admin domain or trusted by a cached role are queued, the cursor moves only afterwards and only to a non-empty tag, and all of it is a schedule of the protocol |
| ControllerObject.ValidOfMeans | pkg/cron/cron.go:105-111 | a returned domain is queued as often as it was returned if it is valid, and not at all otherwise |
| ControllerObject.Controller.FullResync | pkg/cron/cron.go:146-176 | one round leaves queued exactly what was queued, the domains of the cached namespaces that are not on the exclusion list, the admin and system domains, and the cached keys of the trust index, and is a schedule of the protocol |
| Refinement.FinishSyncIsASchedule | pkg/controller/controller.go:232-297 | an uninterrupted sync is one of the protocol's schedules |
| Refinement.ReachesExtendsRun | pkg/controller/controller.go:178-184 | what can be reached from the end of a run is the end of a longer run |
| Refinement.InvariantsCarryOver | pkg/controller/controller.go:189-229 | so the consistency, no-lost-update and garbage invariants hold where a method of the controller arrives |
| Refinement.QuietIsDrained | pkg/cron/cron.go:136-179 | a quiet state of a run, with nothing given up and usable names, is a drained state of the synchronous loop with complete index keys, from which its rounds start |
| Refinement.ProcessIsASchedule | pkg/controller/controller.go:189-297 | from a state without lag, the lagging protocol can process a queued domain and arrive, again without lag, exactly where the synchronous loop's step goes |
| Retry.CounterCounts | pkg/ratelimiter/ratelimiter.go:48-80 | in every stretch of every run a domain's counter is what it was at the start plus its enqueues by events, resyncs, the cron, trusting roles and retries since it was last given up; no success resets it |
| Retry.CounterStep | pkg/controller/controller.go:217-225 | each step changes a domain's counter and its places in the queue by those enqueues, its becoming ready, its being taken and its being given up alone |
| Retry.RetryBound | pkg/controller/controller.go:217-225 | while nothing else enqueues a domain, its retries and dequeues in any stretch of any run stay within a budget of its counter and its copies |
| Retry.SingleCopyRetryBound | pkg/controller/controller.go:217-225 | with one copy around, at most 3 - min(counter, 3) retries and one dequeue more follow, whatever the syncs' outcomes |
| Retry.ThreeRetriesExactly | pkg/controller/controller.go:217-225 | after a failure, at most 3 - min(counter, 3) retries follow in every stretch of every run without outside enqueues if and only if the domain is not queued besides |
| Retry.DrainBound | pkg/controller/controller.go:189-229 | while nothing is enqueued from outside, all dequeues together stay within the copies and retries that the start has left |
| Retry.EmptyWhenSpent | pkg/controller/controller.go:189-229 | once that many items have been dequeued the queue is empty |
| Retry.FailingWorkerDrains | pkg/controller/controller.go:189-229 | an always-failing worker drains its queue: its runs are bounded, and one that cannot go on has nothing queued and nothing in hand |
| Termination.MeasureFalls | pkg/controller/controller.go:189-297 | without such a cycle every step lowers a measure: stale contents first, domains not pinned second, due writes by rank third, the load of the queue last |
| Termination.TerminationExactly | pkg/controller/controller.go:180-184 | for fixed ZMS and namespaces, the loop drains its queue from every state and in every order if and only if no domains of ZMS that no namespace has want each other one way in a circle, none of them wanting itself or the one before it |
| Termination.Quiesces | pkg/controller/controller.go:180-184 | without such a cycle the runs from any state are bounded, whatever is stale, missing, self-trusting or mutually trusting |
| Termination.RunWorker | pkg/controller/controller.go:180-184 | the worker's loop then terminates with an empty queue, each queued namespace or admin domain holding the filtered ZMS content up to signatures, or nothing if ZMS lacks it |
| Quiescence.RootedEndsSettled | pkg/cr/cr.go:38-90 | the same for every run that has drained the queue |
| Quiescence.TrustedEndsStored | pkg/controller/controller.go:273-292 | a domain trusted by a processed namespace or admin domain is stored once the queue is drained, if ZMS has both |
| Termination.CycleReturns | pkg/controller/controller.go:232-238 | the members of any cycle of one-way trust, one of them stored and all queued, can be created and deleted in turn until that one alone is stored again and all are queued |
| Termination.CycleEscapes | pkg/controller/controller.go:232-238 | so some state has runs of any length |
| Convergence.ResyncCoversValid | pkg/cron/cron.go:146-176 | a full resync queues every stored non-empty canonical name of no excluded namespace that ValidateDomain accepts |
| Convergence.NamespaceDomainsAreValid | pkg/cron/cron.go:195-202 | the domain a live regular namespace queues passes ValidateDomain |
| Convergence.ResyncCoversStored | pkg/cron/cron.go:163-175 | with retained keys a full resync queues every stored domain, valid or not |
| Convergence.DrainRests | pkg/controller/controller.go:232-238 | a drained round brings one more rank of trust to rest and disturbs none that rests |
| Convergence.RoundsConverge | pkg/cron/cron.go:136-179 | without cycles of one-way trust there is a number of rounds after which, in any order of the queues, every stored domain is valid and has the filtered ZMS content, and every valid domain of ZMS that a namespace, the configuration or a namespace's trust asks for is stored |
| Convergence.RankedRoundsConverge | pkg/cron/cron.go:136-179 | where all trust has ranks, one round more than the top rank is such a number |
| Convergence.OneRoundLeavesAnOrphan | pkg/cron/cron.go:163-175 | one round may leave an unsupported domain stored, and for ever when index keys are not retained |
| OneRound.OneRoundSuffices | pkg/cron/cron.go:136-179 | from any drained state, with stale or missing contents and with trust cycles, a single round leaves nothing unsupported in every order of the queue if some stored domains support themselves, before and after any rewrite, and every other domain that is or will be trusted is wanted by a namespace's or the admin domain, by a domain one of these wants, or by one of the stored ones |
| OneRound.ShortTrustSuffices | pkg/cron/cron.go:136-179 | in particular if everything trusted that no namespace has is wanted by a namespace's or the admin domain |
| OneRound.OneRoundExactly | pkg/cron/cron.go:136-179 | when only removals are due, a single round leaves nothing unsupported in every order of the queue if and only if every spared domain that no namespace has is trusted by a spared one |
| OneRound.BackedRoundEnds | pkg/controller/controller.go:232-238 | the sufficient half, for any drained run after the resync |
| OneRound.UnbackedRound | pkg/controller/controller.go:232-238 | the necessary half: an order of the queue that leaves such a domain behind |
| RateLimiting.AdmissionClosedForm | pkg/ratelimiter/ratelimiter.go:48-64 | over any call history and clock readings the k-th admission time is the maximum of the creation time plus k intervals and of each earlier reading plus the intervals since |
| RateLimiting.DelayBounds | pkg/ratelimiter/ratelimiter.go:48-64 | a delay is never negative, and at most k intervals for the k-th admission on a monotone clock |
| RateLimiting.AdmissionsAreASchedule | pkg/ratelimiter/ratelimiter.go:48-64 | admissions are in order, not before creation or request, and an interval apart |
| RateLimiting.AdmissionsAreLeast | pkg/ratelimiter/ratelimiter.go:48-64 | and pointwise the least such schedule |
| RateLimiting.WindowBound | pkg/ratelimiter/ratelimiter.go:48-80 | any half-open window of width w holds at most ceil(w / interval) admissions, with Forget and NumRequeues interleaved at will |
| RateLimiting.CounterMeaning | pkg/ratelimiter/ratelimiter.go:48-80 | the counter of an item is the number of its enqueues since it was last forgotten |
| RateLimiting.RateLimiter.constructor | pkg/ratelimiter/ratelimiter.go:38-44 | a new limiter has an empty history, one interval back |
| RateLimiting.RateLimiter.When | pkg/ratelimiter/ratelimiter.go:48-64 | raises the item's counter by one and returns the last admission of the extended history minus the clock reading |
| RateLimiting.RateLimiter.Forget | pkg/ratelimiter/ratelimiter.go:67-72 | drops one counter, no other, and no admission |
| RateLimiting.RateLimiter.NumRequeues | pkg/ratelimiter/ratelimiter.go:75-80 | returns the enqueues since the item was last forgotten |
| Codec.EncodeLaw | pkg/util/util.go:52-58 | outside the admin prefix a domain is encoded character by character: '-' to two dashes, '.' to one |
| Codec.PrefixLaw | pkg/util/util.go:53-55 | the admin domain and a '.' are cut off; a name that begins with the admin domain otherwise is left alone |
| Codec.DecodeLaw | pkg/util/util.go:63-69 | a system namespace gets the admin domain and a '.' in front; in any other, two separators become '-' and one '-' becomes '.', from left to right |
| Codec.DomainRoundTrip | pkg/util/util.go:52-69 | outside the admin prefix and the system namespaces, a domain comes back from its namespace if and only if no '.' in it is followed by '.' or '-' |
| Codec.SystemDomainRoundTrip | pkg/util/util.go:52-69 | a domain mapped to a system namespace comes back if and only if it starts with a non-empty admin domain and a '.' |
| Codec.NamespaceRoundTrip | pkg/util/util.go:52-69 | an ordinary namespace whose domain avoids the admin prefix comes back from its domain if and only if it has no '.', for dash runs of any length |
| Codec.SystemNamespaceRoundTrip | pkg/util/util.go:52-79 | a system namespace comes back from its domain if and only if an admin domain is configured |
| Codec.PrefixedNamespaceRoundTrip | pkg/util/util.go:52-69 | an ordinary '.'-free namespace whose domain begins with the admin domain comes back if and only if it has no '-' |
| Codec.RegularRoundTrip | pkg/util/util.go:52-79 | system and '.'-free namespaces come back exactly under the three conditions above, and then name canonical domains |
| Codec.OrdinaryNamespacesDiffer | pkg/util/util.go:63-69 | no two distinct ordinary '.'-free namespaces share a domain, whatever the admin domain |
| Codec.CollisionExactly | pkg/util/util.go:63-69 | an ordinary '.'-free namespace shares a domain with a system namespace if and only if it is spelled as the encoding of that domain, and that domain has no '.' before '.' or '-' |
| Codec.SharedDomainExactly | pkg/util/util.go:63-79 | two namespaces, each system or '.'-free, share a domain if and only if they are the same or one is such a spelling of the other |
| Codec.FindSystemNamespace | pkg/util/util.go:72-79 | the search finds exactly the listed namespaces |
| Codec.GetSystemNSDomains | pkg/util/util.go:114-121 | one domain per system namespace, in order, each leading back to it under an admin domain |
| Identity.TimesSpelledOut | pkg/identity/identity.go:96-112 | the grace period is the largest number of whole seconds in a quarter of the expiry, and ticks come every tenth of it |
| Identity.ValidityExactly | pkg/identity/identity.go:96-125 | every run whose key outages last at most k ticks has an unexpired token at every instant if and only if the last age at which a check keeps a token, plus k + 1 ticks, stays below the expiry |
| Identity.FourSeconds | pkg/identity/identity.go:96-108 | without failed refreshes that is exactly an expiry of 4 s or more, the grace period being cut to whole seconds |
| Identity.SixteenSecondsSurviveOneFailure | pkg/identity/identity.go:96-125 | from 16 s on, one failed tick between successes is survived |
| Identity.AgeBound | pkg/identity/identity.go:96-125 | the token in force was minted at a tick, and is older than the last kept age by no more than the current outage |
| Identity.TokenProvider.UpdateToken | pkg/identity/identity.go:69-93 | installs a token and its expiry together, or changes nothing when no key can be had |
| Identity.TokenProvider.GetToken | pkg/identity/identity.go:96-108 | fails only when the grace period has begun and no key can be had; a returned token is the installed one and outlives the grace period |
| Identity.TokenProvider.RefreshLoop | pkg/identity/identity.go:111-125 | a run of prompt ticks records the expiry that the runs above speak of |
| Identity.NewTokenProvider | pkg/identity/identity.go:53-66 | a provider comes back if and only if its first token could be minted; expiry zero means an hour |
| Reloading.ReloaderSafety | pkg/reloader/reloader.go:60-116 | in every state of every schedule of any number of goroutines: at most one between winning and clearing the flag, the flag set exactly then, all four fields from one reload when no writer is inside, and every reader's pair read by one reload |
| Reloading.StepInv | pkg/reloader/reloader.go:60-116 | each step keeps the invariant behind it, including that the write lock excludes readers |
| Reloading.TimeGrowsExactly | pkg/reloader/reloader.go:94-116 | once the constructor's reload has returned, every publication of every schedule raises the recorded mtime if and only if each reload that has read the mtime and is yet to write it is for a newer file than the recorded one |
| Reloading.TimeGrowsWithEveryPublish | pkg/reloader/reloader.go:94-116 | the mtime then grows at every publication and at no other step |
| Reloading.SettledTimeGrows | pkg/reloader/reloader.go:136-150 | it is so when every reload under way read the mtime after the constructor's reload returned |
| Reloading.OverlapLowersTime | pkg/reloader/reloader.go:136-150 | before that it may go down: a schedule in which a watcher's reload overlaps the constructor's |
| Reloading.ReloadAlone | pkg/reloader/reloader.go:94-132 | an uninterrupted reload of the step system, whichever of its file operations fail, ends with all four fields published when the file is newer and none failed, and with nothing changed otherwise, as the method computes |
| Reloading.CertReloader.MaybeReload | pkg/reloader/reloader.go:94-132 | replaces all four fields when the file is newer and all its reads succeed; after an error, or for a file that is not newer, nothing has changed; an error exactly when a needed file operation fails |
| Reloading.CertReloader.FileUpdate | pkg/reloader/reloader.go:71-80 | reloads unless the flag is set, all four fields or none, and leaves the flag as it was |
| Reloading.ReaderAlone | pkg/reloader/reloader.go:60-66 | an uninterrupted reader returns the stored key and certificate, and one reload read both |

## Left out

- Generated clientset, informers, listers, scheme and deepcopy (pkg/client, pkg/apis): library plumbing; its contract is assumed above.
- client-go's queue and store and the backoff library: not part of this model; their contracts are assumed above, and a failed cron request is simply a later one.
- A relist after a broken watch that skips intermediate events is not modelled: an object's deletion and re-creation both reach the handlers.
- ZMS over HTTP, TLS, flags, logging, metrics and the contact-time ConfigMap (pkg/cron/cron.go:205 on): input and output only.
- pkg/crypto/key.go and pkg/filewatcher/filewatcher.go (PEM parsing, a sort, directory events): not modelled.
- Shutdown (queue closing, stop channels) and the periodic restart of runWorker: a run may stop anywhere, and a process that crashed starts again from `Protocol.Init`.
- Delays are not timed in the protocol; the rate limiter's schedule is proved for the limiter alone, and the width of time.Duration is not modelled.
- In `Protocol`, FullResync is single enqueues of any names in any order, so that lists taken earlier are covered, and AddAdminSystemDomains is one step; the class methods have the loops.
- ControllerObject.Controller.RequestCall: its cache does not move during the loop; interleavings inside the walk are covered by `Protocol` instead.
- ControllerObject.Controller.Sync: likewise uninterrupted; interleavings are covered by `Protocol`, whose steps are cut at every shared access.
- ControllerObject.Controller.UpdateCR: the error message written by UpdateErrorStatus is not modelled, because pkg/controller/controller.go:256 is never reached.
- Convergence.RoundsConverge: speaks of the synchronous loop with retained index keys; an orphan that trusts itself, or orphans that trust each other, are valid to ValidateDomain and stay.
- Termination.TerminationExactly: speaks of the synchronous loop. The lagging protocol can follow that loop (`Refinement.ProcessIsASchedule`); that each of its own runs ends once everything else is frozen is not stated.
- OneRound.OneRoundExactly: the if-and-only-if assumes that nothing but removals is due; for the other drained states `OneRound.OneRoundSuffices` gives a sufficient condition, and `Convergence.RoundsConverge` needs none on contents.
- Identity.ValidityExactly: integer division stands for the floating-point product of the grace period, signing and recording a token are one instant, and an expiry below 10 ns, for which the ticker panics, is excluded.
- Reloading.TimeGrowsWithEveryPublish: no claim that every file event leads to a reload; one that falls between the stat and the clearing of the flag is ignored by the code.
- Resources.GetLatestTimestamp: modification stamps before 1970 are not modelled.
