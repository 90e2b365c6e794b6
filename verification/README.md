# aboard, modelled and proved

aboard watches containers, reads their labels, and makes an Authentik server protect each app as its
labels ask: a provider, an application that points at it, the access bindings that gate it, and, for
forward auth, a place on an outpost's list, in this order. This project models the parts of it where
order, failure and timing matter, and proves what they guarantee.

## How it is put together

**The reconcile engine.** `Authentik` is the server as REST shows it: tables, the effect of each request,
and a class `Server` whose every call is one atomic step that may work, never arrive, or be applied with the
reply lost. A ghost trace records every request with the tables right after it. `Desired` says what a Spec means
in those tables, `Lookups`, `Bindings`, `Provision`, `GoLive` and `Reconciler` are the protocol, and `Law`
is what every state of a reconcile owes the state it started from; `Neighbours` draws from it what the other
apps keep meanwhile. `Rows` says what a converged app looks like in Authentik's rows and `Conditions` when a reconcile is refused and when it
can succeed, both in the words of the labels and the rows alone, without the definitions the protocol is built from. `Cleanup` is orphans and teardown, `Live` the read-only confirmation, `Fleet` whole runs of many jobs.

**The daemon.** `Queue` is the coalescing queue and its one consumer, `Debounce` the per-key timers,
`Scheduling` all interleavings of events, timers, callbacks, the shutdown sequence and the worker, `Shutdown`
the drain watchdog, `Sticky` the standing errors, `Sync` the records a worker job keeps. `Processing` takes one container from
labels to findings, `Pass` says how a pass over a listing stands half way through, and `Worker` is whole jobs down to the
records. `Race` cuts the attach step into its requests and lets two workers interleave.

**The proxy.** `Text` and `Routers` read labels and rules, `Audit` is the verifier, `Repair` the
renderer and the question whether pasting its output repairs what the verifier found; `Instances` holds containers on which it does not.

**Discovery.** `Namespace` merges the two label prefixes, `Slug` derives slugs, `Grammar` classifies suffixes, and
`Discovery` turns labels into the Spec that the other parts take, or into complaints.

Classes and loops follow the Go methods; what a method must achieve is stated by a predicate or a function
of its inputs, and what that means over runs is proved as lemmas. Methods hide definitions they do not
need, so that each proof stays small.

## Where the code and its comments part

- A teardown that fails after deleting the provider leaves an application that points nowhere. It no longer
  counts as aboard's, so teardown refuses it from then on. The comment on `Teardown` calls the
  pre-existing state the worst outcome. `Cleanup.TeardownAgain`: after any first teardown, whatever failed in it, a second one
  finishes the work exactly when the provider is still there. `Cleanup.TeardownTwice`, and a run in `Cleanup.Stranded`
- Pasting what is rendered does not always repair. The priority printed for a new callback is the highest of the
  host plus ten in a 64-bit integer, and loses when that wraps around; a dotted slug makes no callback router; a middleware name
  that is not one list field is not found again. An old callback that only lacked the middleware is repaired
  all the same. `Repair.Repairable` is the exact condition, `Repair.RepairsExactlyWhen` the proof, `Instances.HugePriorityIsNotRepaired` an instance.
- A priority label of -1 reads as no priority: `Instances.MinusOneIsNoPriority`. A callback must outrank zero even when
  the public routers do not: `Instances.OnTopIsNotEnough`, `Instances.BelowZeroIsReported`.
- A stale timer callback frees its key without stopping the newer timer, so `stop` does not halt every
  timer. It is harmless: that callback finds nothing. `Scheduling.StopCanMissATimer`, and exactly when in `Scheduling.StopHaltsAllTracked` and `Scheduling.TrackedStep`
- A callback hands its job over after it released the lock. The job can arrive after the queue closed, or after a newer
  job for the same key, which it then replaces. `Scheduling.PushCanComeTooLate`, `Scheduling.OlderCanLandLast`; `Scheduling.FreshStep`
  and `Scheduling.LostOnlyInTheGap` say exactly when.
- An app attached to a named outpost only is reported as drifted although its reconcile succeeded. `Live.ConvergedIsLive`, a store in `Live.NamedOutpostIsDrift`
- Clearing the errors of a container that is gone also clears those of another one with the same slug. `Sync.SharedSlugIsClearedToo`, an instance in `Sync.TheOtherStillCarriesIt`
- The orphan comparison does not order forward-auth against SAML and is no weak order. `Cleanup.EarlierIsNotAWeakOrder`;
  on which lists it is one is `Cleanup.ChainsExactlyWhen`
- Two spellings of one index, such as `oidc.redirect.1` and `oidc.redirect.01`, silently collapse into one entry.
  `Grammar.OneEntryPerLabel`, `Discovery.RedirectSpelledTwice`

## Model

| member | source | states |
|---|---|---|
| Authentik.ApplyKeepsWellFormed | internal/reconcile/api.go:25-119 | every request that is applied keeps provider names unique, pks fresh, and the application-provider link one-to-one |
| Lookups.GetOAuth2ByName | internal/authentik/providers.go:218-242 | finds a provider of that name only if its own row is a genuine OAuth2 one, and reports absence only if there is none, although the listing also returns proxies |
| Lookups.ResolveOwnership | internal/reconcile/ownership.go:80-115 | the three lookups decide exactly: the provider pointed at exists, bears the slug's marker and has a known type |
| Bindings.ResolveGroups | internal/reconcile/reconcile.go:505-545 | nothing but missing groups among the requested names is ever created, only under the opt-in, and an error can leave some of them behind |
| Bindings.BindingDiff | internal/reconcile/adoption.go:103-138 | adds are the wanted keys nothing carries, removes the bindings whose key is not wanted or missing |
| Provision.EmptyDiffIsExact | internal/reconcile/adoption.go:103-138 | the diff is empty exactly when the application carries the wanted keys and nothing else |
| Bindings.KeysStayWithin | internal/reconcile/reconcile.go:893-950 | in every intermediate or failed state a bound key is an old or a wanted one, and a wanted one once nothing stray is left |
| Bindings.RemoveStrays | internal/reconcile/reconcile.go:893-929 | strays of this application go, nothing else does, and what is counted as present is what is bound afterwards |
| Bindings.ConvergeBindings | internal/reconcile/reconcile.go:893-950 | success leaves exactly the wanted keys with kept rows untouched; nothing stray is bound from the first creation on; it writes nothing exactly when the diff was empty |
| Provision.AdoptionGate | internal/reconcile/adoption.go:35-96 | without writing, refuses a type change always and a material difference unless adoption is declared |
| Provision.CheckExternalHostCollision | internal/reconcile/reconcile.go:387-411 | passes only if no other aboard-named proxy provider claims the host, the adopted one excepted, and refuses only if one does |
| Law.PlacedHostsUnique | internal/reconcile/reconcile.go:323-334 | after the checks, writing the provider keeps hosts unique, in-place renames included |
| Law.PlacedType | internal/reconcile/reconcile.go:336-351 | the row that is patched or created is of the type the labels ask for and ends up under the marker |
| Provision.BuildOidcBody | internal/reconcile/reconcile.go:623-699 | the body carries flows, client, redirects, secret, key and scopes; what is missing is refused before any write, with the code of the first thing that is |
| Desired.RefusedWithoutBody | internal/reconcile/reconcile.go:577-823 | for every provider type a body is refused exactly when there is none to send |
| Provision.Place | internal/reconcile/reconcile.go:577-617 | one write, to the adopted row, else the marker-named row of the type, else a new one; every other row stays as it is |
| Provision.ConvergeApplication | internal/reconcile/reconcile.go:842-886 | the application ends up pointing at the provider with every declared field, undeclared ones as found |
| GoLive.DoublingReaches | internal/reconcile/reconcile.go:198-201 | waits are 3 s times a power of two, capped at 15 s |
| GoLive.PollIsBounded | internal/reconcile/reconcile.go:1042-1075 | the poll ends less than 15 s after any positive timeout, within 3 + ceil((timeout - 21)/15) probes from 21 s on |
| GoLive.ServedIsReportedLive | internal/reconcile/reconcile.go:1042-1075 | a host served from some moment of the window on is never reported stale, and is reported live less than 15 s after that moment |
| GoLive.PollReports | internal/reconcile/reconcile.go:1012-1075 | after a first probe that said no: unless a probe or a sleep fails, a host served from any moment of the window on is reported live less than 15 s later; stale means no probe of the whole window found it |
| GoLive.PollGoLive | internal/reconcile/reconcile.go:1042-1075 | terminates; live means the last probe said so, stale means every probe of the whole window said no |
| Reconciler.VerifyGoLive | internal/reconcile/reconcile.go:1012-1034 | the tables stand still; a host that is not served at first is reported live only after the list was sent again, and only when it is served at that moment; undisturbed it polls on: served within the window means live in time, and stale that neither the first probe nor any of the window found it served |
| Reconciler.AttachOutpost | internal/reconcile/reconcile.go:965-1034 | from the first successful PATCH on the provider stays listed, the forced re-send included; success on the embedded outpost means it is served; undisturbed, a host served from any moment of the window on succeeds in time |
| Reconciler.Prepare | internal/reconcile/reconcile.go:249-334 | every refusal in front of the writes leaves all but requested groups as found; success means every check has passed on the store as it then is, and a refusal is the first check that has not; without failures it gets through whenever they do |
| Reconciler.Realise | internal/reconcile/reconcile.go:336-364 | provider, application and bindings in this order, no outpost list touched, and success means the app points at its marker-named provider behind exactly the wanted bindings |
| Reconciler.Reconcile | internal/reconcile/reconcile.go:237-378 | at every step and every failure: hosts stay unique, lists only grow, others' rows and bindings stay and get no new ones, what it changes is its own, an outpost PATCH is only sent once the app is gated, a converged store does not move; success means all the labels ask for, row by row, what they do not declare stays as found, a provider that is taken over is taken over in place, nobody else claims the host, and nothing goes onto an outpost before the right people are let in; a refusal is for the first reason there is; without failures it succeeds whenever checks, names, links and outpost allow it, waiting for the host as long as the window |
| Rows.ReadyIsGated | internal/reconcile/reconcile.go:445-555 | in every state in which an app may go onto an outpost its bindings name exactly the groups of the labels, or the default ones where the labels set none, and exactly the policies of the labels |
| Rows.ConvergedIsAsAsked | internal/reconcile/reconcile.go:237-378 | a converged app has every label in its rows: bindings, access rule, title, launch, description and icon; name, type, flows, host, paths, client, redirects, secret, scopes, SAML fields, keys; and its place on the first outpost of the name |
| Reconciler.UndeclaredIsKept | internal/reconcile/reconcile.go:836-886 | a field without a label keeps its value, in the application and in the provider, of whatever type |
| Reconciler.KeptInPlace | internal/reconcile/reconcile.go:294-318 | the provider an application points at is the one that is written, aboard's or adopted |
| Reconciler.LawfulIsAsAsked | internal/reconcile/reconcile.go:361-375 | whatever request of a run touches an outpost, access rule and bindings are as the labels ask right after it |
| Conditions.RefusedExactlyWhen | internal/reconcile/reconcile.go:249-334 | each refusal in front of the provider body is the answer if and only if its condition on labels and rows holds and those before it do not |
| Conditions.AdoptedExactlyWhen | internal/reconcile/adoption.go:20-96 | an application that is not aboard's is taken over if and only if it is of no other type and either the labels say so or title, access rule and bindings are as asked already |
| Conditions.BodyRefusedExactlyWhen | internal/reconcile/reconcile.go:623-823 | the same for what the provider itself needs: secret, key, scopes, mappings |
| Conditions.AdmissibleExactlyWhen | internal/reconcile/reconcile.go:237-378 | a calm run needs known names, a free or adoptable application, a free host, a body, a free provider row and an outpost, and nothing else |
| Reconciler.LinkAndBind | internal/reconcile/reconcile.go:354-364 | application before bindings, every state lawful; success links the app to the provider behind exactly the wanted bindings, and only failing requests or a taken link can prevent it |
| Reconciler.AttachApp | internal/reconcile/reconcile.go:366-375 | a realised forward-auth app ends up converged with lists only growing on the way, or with an error that is no refusal; without failures it succeeds when the outpost exists and serves |
| Neighbours.OthersStayConverged | internal/reconcile/reconcile.go:237-378 | in every state of a reconcile, failed ones included, an app of another slug that was converged still is |
| Neighbours.OthersStayAdmissible | internal/reconcile/reconcile.go:237-378 | in every such state an app of another slug, and another host if both are forward-auth apps, that could be reconciled before still can |
| Reconciler.AvailableIsPlaceable | internal/reconcile/reconcile.go:577-617 | a marker that is free, or on a row of the type that is nobody else's, is enough for the server to take body and link |
| Reconciler.ConvergedIsAdmissible | internal/reconcile/reconcile.go:237-378 | a converged app whose host nobody else claims, as with all hosts unique, can always be reconciled again, whatever other apps collide |
| Law.LawfulProvider | internal/reconcile/reconcile.go:336-352 | the provider phase stays lawful from any state the gate let through, and its typed PATCH hits a row of that type |
| Law.LawfulApp | internal/reconcile/reconcile.go:354-359 | the application phase stays lawful: an adoption without the opt-in changes neither title nor access rule |
| Law.LawfulBindings | internal/reconcile/reconcile.go:361-364 | the binding phase stays lawful: an adoption without the opt-in touches no binding |
| Law.LawfulOutpost | internal/reconcile/reconcile.go:366-375 | the outpost phase stays lawful: what is listed is ready, and no list loses an entry |
| Law.RealisedAtLast | internal/reconcile/reconcile.go:336-364 | what one pass has sent is a fixed point of sending it again, declared fields only |
| Cleanup.DetachFromEmbedded | internal/reconcile/orphans.go:165-184 | only the embedded list changes and only by losing the one provider |
| Cleanup.Teardown | internal/reconcile/orphans.go:118-160 | every state on the way is one of four in order, at the end application, provider and its place on the embedded list are gone, a hand-made application is refused untouched |
| Cleanup.TeardownOrder | internal/reconcile/orphans.go:112-117 | at every failure point: application gone means provider gone, provider gone means off the embedded list |
| Cleanup.TeardownFrame | internal/reconcile/orphans.go:118-184 | only the one application, its provider and its place on the embedded list ever change, and hosts stay unique |
| Cleanup.StoppedHalfwayIsStranded | internal/reconcile/orphans.go:112-117 | an application whose provider a teardown deleted no longer counts as owned, one that was only detached does |
| Cleanup.OwnedWhileProvided | internal/reconcile/orphans.go:118-160 | in every state of a teardown the application counts as owned if and only if its provider is still there |
| Cleanup.TeardownAgain | internal/reconcile/orphans.go:112-160 | after a first teardown with any failures, a second one without any finishes the work exactly when the provider is still there, ending where an undisturbed one ends; it refuses exactly when only the application is left |
| Cleanup.TeardownTwice | internal/reconcile/orphans.go:112-160 | for every owned application: losing just the last request leaves it without provider and an error reported, and the next teardown refuses |
| Cleanup.Stranded | internal/reconcile/orphans.go:118-160 | such a run, of six requests, on a concrete store |
| Cleanup.Orphans | internal/reconcile/orphans.go:58-105 | exactly the suffix-named providers without an enabled application, each once with its assigned slug, type and attachment, live credentials first; any provider whose name does not end in the suffix is never listed |
| Cleanup.OidcFirst | internal/reconcile/orphans.go:97-103 | any sort that leaves no inverted neighbours puts live credentials first, and those by slug |
| Cleanup.EarlierIsNotAWeakOrder | internal/reconcile/orphans.go:98-103 | a concrete triple on which unrelated pairs do not chain, across forward-auth and SAML |
| Cleanup.ChainsExactlyWhen | internal/reconcile/orphans.go:98-103 | on a list the comparison is a weak order if and only if, where two types other than OIDC meet in it, each of them has one slug only |
| Cleanup.SortedThroughout | internal/reconcile/orphans.go:97-103 | under that condition a sort without inverted neighbours has no inverted pair at all |
| Cleanup.OrphanIsOwned | internal/reconcile/ownership.go:25-34 | a reported orphan can be torn down by its slug exactly when its name is the slug's marker |
| Cleanup.TeardownRemovesOneOrphan | internal/reconcile/orphans.go:118-160 | a finished teardown takes its orphan, and no other, off the next scan |
| Live.ConfirmOne | internal/reconcile/live.go:86-125 | any verdict but unknown is the truth about provider, list and serving |
| Live.ConfirmLive | internal/reconcile/live.go:56-83 | one true verdict per app from one reading of the embedded list, and none unknown unless a lookup failed or the host is empty |
| Live.ConvergedIsLive | internal/reconcile/live.go:56-125 | what a reconcile converged is confirmed exactly when, for forward auth, it is served and on the embedded list |
| Live.NamedOutpostIsDrift | internal/reconcile/live.go:56-125 | a concrete store: the app is converged on the outpost it names, served, and reported as drifted |
| Fleet.RunJobs | internal/reconcile/reconcile.go:323-334 | over any sequence of reconciles and teardowns, with failures anywhere, no two aboard-named proxy providers ever share a host; each action achieves what it is for |
| Fleet.RunWorker | internal/daemon/worker.go:97-114 | with one worker running whole jobs, a provider that is on a list at any moment is on it ever after; each job converges its app unless it fails, and does not fail without cause |
| Race.LostExactlyWhen | internal/daemon/worker.go:16-20 | over every interleaving of two attaches, whichever host is served at whichever turn, one that has attached is off the list exactly when it was new, is not the other's, was not yet there when the other read, and the other wrote last |
| Race.TwoWorkers | internal/reconcile/reconcile.go:965-1034 | two workers stepping against the server, each on its own host and with any time between steps, follow that law, re-sent lists included, and whoever is lost was on the list before: no serial run ever does that |
| Race.BothReadFirst | internal/daemon/worker.go:16-20 | a run in which both read before either writes, and the first one's provider is gone |
| Race.AttachAlone | internal/reconcile/reconcile.go:965-1010 | an attach stepped alone lists the provider just as the reconcile's own attach step does |
| Race.SerialLosesNothing | internal/daemon/worker.go:16-20 | one attach after the other lists both, whatever the probes say |
| Fleet.SecondRun | internal/reconcile/reconcile.go:237-378 | the first run succeeds whenever nothing stands in its way; after a success a second run changes nothing at any step and adopts nothing; without failures it succeeds and the app is confirmed live, whatever else is in the store |
| Queue.EnqueueMeans | internal/daemon/worker.go:53-67 | keys stay unique; a waiting key keeps its place and takes the latest job, a new one goes last |
| Queue.WorkQueue.Push | internal/daemon/worker.go:56-67 | order and map together refine one line of jobs; a closed queue drops the push |
| Queue.WorkQueue.Pop | internal/daemon/worker.go:72-86 | the oldest key's latest job leaves; drained is reported only when closed and empty |
| Queue.MovesUp | internal/daemon/worker.go:53-86 | a key at place i is popped by the (i+1)-th pop with the latest job pushed for it, whatever happens meanwhile |
| Queue.ClosedDrains | internal/daemon/worker.go:88-95 | after the close exactly the waiting jobs are popped, in order, before drained is reported |
| Queue.RunWorker | internal/daemon/worker.go:97-114 | open queue or closed, the job last asked for under each key has run or is waiting, and what waited at the start runs first, in order, one a turn, each with the latest job pushed by then; it ends only when cancelled at the top of the loop or drained |
| Queue.OneMoreOwed | internal/daemon/worker.go:97-114 | one turn more leaves nothing that was asked for unrun and unqueued |
| Queue.NextInTurn | internal/daemon/worker.go:72-114 | the job the worker takes in its turn i is the latest for the key that stood at place i |
| Queue.CancelledTurn | internal/daemon/worker.go:102-112 | cancelling stops a worker at the top of its loop at once, but one blocked in pop still runs the next job |
| Queue.ClosedQueueIsRun | internal/daemon/worker.go:97-114 | an uncancelled worker runs everything that was waiting at the close, once and in order |
| Debounce.Debouncer.TakeAll | internal/daemon/debounce.go:87-106 | every pending key once, with its latest id, and no timer of theirs left running |
| Scheduling.Safe | internal/daemon/debounce.go:50-130 | in every interleaving: pending keys have a live timer, ids are the latest observed, takes never exceed observes, and no due key is forgotten |
| Scheduling.FiredLive | internal/daemon/debounce.go:66-78 | a callback, even a stale one, leaves every key that stays pending its timer |
| Scheduling.WindowStartsAfresh | internal/daemon/debounce.go:50-64 | an observation starts a new timer for its key, stops the one that ran, and touches no other |
| Scheduling.TakesTheLatest | internal/daemon/debounce.go:63-78 | whatever callback takes a key takes its last observed id, and only before the stop |
| Scheduling.NothingTakenAfterStop | internal/daemon/debounce.go:113-130 | after the stop nothing is taken or recorded in any continuation |
| Scheduling.FlushedBeforeClose | internal/daemon/daemon.go:332-339 | every key pending at the flush is accepted by the queue, with its latest id, before the stop and so before the close |
| Scheduling.LostOnlyInTheGap | internal/daemon/daemon.go:332-339 | exactly what each event loses: the stop what was observed since the flush, a callback that pushes after the close its key, and nothing else anything |
| Scheduling.DrainServesAll | internal/daemon/daemon.go:332-339 | with nothing lost or in flight at the close, the drain gives the worker a job, of whatever id, for every key observed since its last one |
| Scheduling.FreshStep | internal/daemon/debounce.go:63-78 | a step makes the queue go stale exactly when the job it lands leaves an older one of its key in flight with nothing newer on its way |
| Scheduling.QueueIsFresh | internal/daemon/debounce.go:63-78 | over every run without such an overtaking a queued job is the latest for its key, or the latest is on its way or known to be lost |
| Scheduling.LatestIsKept | internal/daemon/debounce.go:50-130 | over every such run the last id observed for a key is on its way, known to be lost, queued, or the last one the worker was given |
| Scheduling.DrainedRanTheLatest | internal/daemon/daemon.go:332-339 | once the closed queue is drained with nothing lost, in flight or overtaken, the last run of every key ever observed was for its latest id |
| Scheduling.OlderCanLandLast | internal/daemon/debounce.go:75-77 | a run in which the older job replaces the newer one |
| Scheduling.PushCanComeTooLate | internal/daemon/debounce.go:75-77 | a run in which a taken change is dropped by the closed queue |
| Scheduling.StopCanMissATimer | internal/daemon/debounce.go:119-130 | a run in which a timer outlives the stop, and its callback does nothing |
| Scheduling.StopHaltsAllTracked | internal/daemon/debounce.go:119-130 | the stop halts every timer if and only if every running timer is the one its key knows |
| Scheduling.TrackedStep | internal/daemon/debounce.go:66-78 | a step leaves such a timer behind exactly when a stale callback takes a key whose newer timer runs |
| Scheduling.StopReachesAll | internal/daemon/debounce.go:50-130 | over any run without a stale take the stop leaves no timer running |
| Shutdown.CloseDown | internal/daemon/daemon.go:332-339 | flush, stop and close leave what was pending queued, nothing pending, and the queue closed |
| Shutdown.AllAreQueued | internal/daemon/daemon.go:332-339 | the flushed jobs are all waiting afterwards, and every key that waited before still is |
| Shutdown.Drain | internal/daemon/daemon.go:341-403 | ends within the ceiling plus the worker's time to stop, cancels only after a full window without progress or at the ceiling, and never by the window when every gap is shorter |
| Sticky.StickySet.ReplaceSlug | internal/daemon/state.go:49-82 | the errors become the slug's standing set, known ones keep their first time, and exactly the new codes are returned |
| Sticky.StickySet.RetainSlugs | internal/daemon/state.go:97-112 | only kept slugs stay, unchanged |
| Sticky.FirstSeenIsTheBeginning | internal/daemon/state.go:49-112 | over every history an error stands exactly while its streak is unbroken, and was first seen when the streak began |
| Sticky.AddedWhenAStreakBegins | internal/daemon/state.go:43-71 | a code is returned as added exactly when its streak begins |
| Sticky.LastMessageStands | internal/daemon/state.go:49-82 | the message that stands for a code is that of its last finding |
| Sticky.OnlyEnabledStand | internal/daemon/sync.go:198-199 | after a retention only enabled slugs have standing errors, whatever came before |
| Sync.KeyIdentifies | internal/reconcile/orphans.go:40-45 | two orphans share an alert key exactly when type, pk and slug agree |
| Sync.Records.RefreshOrphans | internal/daemon/sync.go:198-244 | the orphans are all there are and the alerts exactly those absent from the last scan; a failed scan keeps the last one and alerts none |
| Sync.Records.Record | internal/daemon/sync.go:72-76 | one job extends the history by what became of its container, announces an error exactly when it was not standing, which is where its streak begins, leaves exactly the errors found standing, and keeps the key's slug |
| Sync.GoneStandsForNothing | internal/daemon/sync.go:66-79 | once a container is gone nothing stands for its slug, even if the listing fails |
| Sync.SharedSlugIsClearedToo | internal/daemon/sync.go:72-76 | of what stands, a container that goes takes exactly the errors of its slug, another container's included |
| Sync.TheOtherStillCarriesIt | internal/daemon/sync.go:72-76 | two containers on one slug: the first goes, the second's error is cleared, and the second still carries the slug |
| Processing.ProcessContainer | internal/daemon/sync.go:85-164 | a container with a label error is reported with exactly its complaints and never acted on; otherwise the reconcile is lawful, succeeds without failures whenever nothing stands in its way, and what is reported is its error and the audit's findings |
| Worker.RunOne | internal/daemon/sync.go:63-83 | one job: an enabled container with acceptable labels is reconciled, with success whenever nothing stands in its way, and nothing else moves the server; the history grows by what became of it and, with a listing, by the retention of exactly the slugs some container asks for; announced are the errors that were not standing, alerted the orphans that are new |
| Worker.FullPass | internal/daemon/sync.go:19-48 | every listed container is processed, reported as it deserves, recorded and announced in turn, whatever became of the others; who came through is converged at the end unless its slug came up again; without failures, with slugs and hosts apart and nothing in anyone's way, all are; where all are already, nothing moves, whatever fails |
| Pass.SettledCanAgain | internal/daemon/sync.go:19-48 | where all that is listed is converged and hosts are unique, the next pass has nothing in its way |
| Pass.OneMoreConverged | internal/daemon/sync.go:19-48 | one more container leaves those that came through converged, failing or not, unless it has the slug of one of them |
| Pass.OneStepFurther | internal/daemon/sync.go:19-48 | one more success leaves every container ahead as able to succeed as it was |
| Worker.Work | internal/daemon/worker.go:97-114 | over any sequence of jobs nothing listed is ever unlisted and hosts stay unique; each job that meets no failure converges its container, or all of them, where nothing stands in the way |
| Text.FoundInOwnList | internal/traefik/router.go:184-199 | a name is found in the list made of it exactly when it is not blank, has no comma and no outer space |
| Text.ListIsRead | internal/discovery/fields.go:16-31 | a comma list is read as the names it was made of, in their order, however they are padded |
| Text.PiecesMakeTheString | internal/discovery/fields.go:20 | the pieces of a split joined again are the string |
| Text.PartsAreFound | internal/discovery/fields.go:20 | parts without a separator, joined and split, are the same parts |
| Text.TrimStrips | internal/discovery/fields.go:22-26 | trimming takes off the blanks around a name and nothing else |
| Text.PrintedIsRead | internal/traefik/router.go:111-114 | every 64-bit priority is read back as printed |
| Text.BytesOfPlainText | internal/traefik/router.go:122-132 | the length of a rule of plain characters is their number |
| Text.NumbersAsWritten | internal/traefik/render.go:101 | numbers are written in tens, with a sign in front of the negative ones |
| Text.BelowAsWritten | internal/discovery/host.go:55-61 | one string is below another exactly when it ends first, or has the smaller character, where the two part |
| Routers.PrintedHostIsRead | internal/discovery/rule.go:32-40 | a printed host matcher is read back exactly when the host is not empty and has no backtick |
| Routers.FirstHostIsRead | internal/discovery/rule.go:32-40 | the first matcher in a rule, wherever it stands, gives the first host |
| Routers.NoHostIsRead | internal/discovery/rule.go:32-40 | a rule without a matcher names no host |
| Routers.KeyIsRead | internal/traefik/router.go:89-98 | a label key and its dot-free router name and field determine each other |
| Routers.RouterIsNamed | internal/traefik/router.go:87-103 | a router is there if and only if some label bears its name |
| Routers.RouterAsWritten | internal/traefik/router.go:104-118 | and it is what its four labels say: rule, middleware list, service, and the number its priority label spells |
| Routers.RoutersWithOne | internal/traefik/router.go:87-120 | one more label changes one router, whatever order labels come in |
| Routers.ParseRouters | internal/traefik/router.go:87-120 | each router is what its own labels say, in whatever order the map is walked |
| Audit.Verify | internal/traefik/verify.go:178-323 | findings are exactly the unwired protected routers, unknown names, and an unmet callback; satisfied exactly when not mixed, covered by the fleet, or won by a callback; router by router, one whose rule lacks the path matcher or the outpost's path is protected or public, and reported when protected without the middleware, and one that has both is neither unless it is named |
| Audit.ReportJudges | internal/traefik/verify.go:204-262 | what becomes of one router of the host, by what occurs in its rule, its middlewares and the names in the labels |
| Audit.ReportJudgesCallback | internal/traefik/verify.go:242-320 | required exactly when some router is public; satisfied exactly when not required, covered by the fleet, or some router of the host has path matcher and outpost path in its rule, the middleware, and a priority, written or the length of its rule, above zero and every public one; the two findings accordingly |
| Repair.RenderRepairs | internal/traefik/render.go:50-105 | enough for any container: a middleware name that is one list field and, with a block, a dotless slug and a priority that does not wrap; pasting and auditing again then leaves nothing but unknown names |
| Repair.RenderedAsWritten | internal/traefik/render.go:61-105 | the middleware line for each protected router and, where a callback is needed, eight lines: a router on host and outpost path whose service is the one defined beside it, at Authentik's address without trailing slashes |
| Repair.RepairsExactlyWhen | internal/traefik/verify.go:178-356 | for any container at all, losing callbacks, taken names and dotted slugs included: the rendered labels repair it if and only if a condition on its labels holds |
| Repair.FreshNameCondition | internal/traefik/verify.go:277-320 | with a free name the condition reads: the middleware name is one list field, and the new callback works or one that is there only lacked the middleware |
| Repair.OutcomeWithBlock | internal/traefik/render.go:87-105 | with a rendered callback the second audit is clean exactly under that condition |
| Repair.OutcomeWithStub | internal/traefik/router.go:89-103 | with a dotted slug the block makes no callback, and the second audit is clean exactly when none was needed |
| Repair.OutcomeWithoutBlock | internal/traefik/render.go:61-67 | without a block it is clean exactly when the middleware name is one list field or nothing is protected |
| Instances.HugePriorityIsNotRepaired | internal/traefik/verify.go:358-365 | a concrete container on which audit, render, paste and audit again still reports the callback |
| Instances.OnTopIsNotEnough | internal/traefik/verify.go:287-306 | a mixed host with a callback above every public router is reported all the same exactly when no such callback has a priority above zero |
| Instances.BelowZeroIsReported | internal/traefik/verify.go:369-377 | a concrete container of that kind |
| Instances.MinusOneIsNoPriority | internal/traefik/router.go:122-132 | on any labels a written priority is taken as it is if and only if it is not -1 |
| Repair.AuditPasteAudit | internal/traefik/verify.go:178-323 | the operator's whole round, audit, render, paste and audit again, ends clean if and only if the container is repairable |
| Repair.BlockPasted | internal/traefik/render.go:87-105 | the block says all there is to say about its router, whatever labels stood there before, and touches no other |
| Namespace.MergeNamespaces | internal/discovery/namespace.go:47-81 | each suffix has its primary value where there is one, and a conflict is reported exactly when both spellings differ |
| Namespace.RespellingChangesNothing | internal/discovery/namespace.go:10-23 | moving labels to the other prefix changes neither the merged map nor the conflicts |
| Discovery.RespellingSameDiscovery | internal/discovery/discovery.go:60-143 | moving labels to the other prefix changes neither what the labels mean, nor a single complaint, nor whether they are accepted |
| Discovery.OneMeaning | internal/discovery/discovery.go:60-143 | labels mean one Spec only: no field, indexed lists included, depends on the order in which the map is walked |
| Discovery.DiscoverBoth | internal/discovery/discovery.go:60-143 | two discoveries of one container, its labels under either prefix and the maps walked in any order, return the same Spec, the same complaints and the same verdict |
| Slug.SanitizeSlug | internal/discovery/fields.go:39-55 | the letter and digit runs of the name in lower case, joined by single hyphens |
| Slug.DerivedIsCanonical | internal/discovery/fields.go:34-55 | a derived slug is empty or canonical: slug characters only, no hyphen at an end or doubled |
| Slug.DerivedIsFixed | internal/discovery/fields.go:34-55 | deriving a slug from a derived slug changes nothing |
| Slug.WordIsLowered | internal/discovery/fields.go:39-55 | a word of letters and digits survives whole, each letter in lower case |
| Slug.DerivedInParts | internal/discovery/fields.go:39-55 | any other character parts what is before it from what is behind it with one hyphen, or none at an end |
| Grammar.Parse.Route | internal/discovery/route.go:69-176 | every suffix is classified: filed under its families, kept if it is a known key, and otherwise complained about as what it is |
| Grammar.InferHost | internal/discovery/host.go:43-97 | a host is inferred exactly when all router rules agree on one literal and none uses a pattern; otherwise the one reason is given |
| Grammar.RuleKeyAsWritten | internal/discovery/rule.go:14-52 | a rule label is the prefix, a name without a dot, and the field |
| Grammar.InferredAsWritten | internal/discovery/host.go:43-97 | an inferred host is named by some router rule, and no other host is |
| Grammar.OneEntryPerLabel | internal/discovery/fields.go:71-117 | an indexed list has one entry per label if and only if no two labels spell the same number |
| Grammar.NumberedIsRead | internal/discovery/fields.go:71-117 | labels numbered from zero are read as their values, in the order of the numbers |
| Discovery.RedirectSpelledTwice | internal/discovery/fields.go:109-117 | concrete labels with one number spelled twice are accepted with one redirect gone |
| Discovery.Discover | internal/discovery/discovery.go:60-143 | every field is what the labels mean, lists being those that were written; each complaint is raised exactly when its rule is broken; an enabled container has an error exactly when it breaks some rule, and without one its Spec is well formed |
| Discovery.MeansAsWritten | internal/discovery/discovery.go:60-330 | every field is what its label was written as, or what stands in for it where it says nothing; a list field is the comma list or the numbered labels |
| Discovery.ForeignWritten | internal/discovery/discovery.go:253-384 | a label of another provider type, or of the proxy where there is none, is complained about, and no other is |
| Discovery.AcceptedIsSound | internal/discovery/discovery.go:253-384 | no error means a well-formed Spec: known suffixes, no foreign family, absolute redirects with a secret exactly when confidential, an absolute ACS, a host, a valid or canonical slug |

## Left out

- HTTP, JSON, pagination, name search by substring and redaction: every call is one atomic step over complete, exact tables.
- The server's rules beyond those in `Authentik.Apply`: provider names are unique, an application and its provider are linked one-to-one, deleting a provider unlinks its application and leaves outpost lists alone.
- Authentik changed by anyone else while a job runs: only aboard's own requests move the tables.
- Action trails, log lines, digests, message texts and the enrichment of the missing-group message: an issue is its severity and code.
- Warnings and notes of a reconcile (a group created, a binding removed, an adoption): of its issues only the errors are claimed, and of adoption the flag.
- The matching mode of redirect entries is always strict and left out of the body.
- Fields sent empty are omitted and keep what is stored, so convergence is about declared, non-empty fields; the regex of public paths cannot be cleared.
- Bindings are compared by key: their enabled, negate and order settings are not, and who is admitted between two requests is not claimed.
- Duplicate desired names create duplicate bindings; the claims are about sets of keys.
- The library sort of orphans is modelled as an insertion sort; all that is used of it is that it permutes and leaves no inverted neighbours.
- The go-live clock advances by sleeping only, requests take no time.
- `aboard prune` beside a running daemon: runs are serial.
- The Go scheduler and memory model: callbacks, flush, worker and shutdown interleave as atomic steps, and timers expire at any moment.
- Debounce.Debouncer.TakeAll: stops the timers of all pending keys in one assignment, where the code goes key by key under the lock.
- Shutdown.Drain: takes each completion the moment it happens; a completion that is seen late restarts the window late.
- Which containers are excluded and which service a container belongs to are given as functions.
- Sorted order and text of audit findings and lists of router names: only their members are claimed, as nothing depends on the order.
- Rendered labels are key and value pairs: the list-item text around them, its quoting and the comment lines are not modelled, and neither is the once-per-fleet setup.
- Verifying group delivery through the shared middleware: a substring check that warns.
- The URL grammar is a predicate.
- Rules are no longer than a 64-bit integer counts, where the exact repair condition depends on it.
- Lower case is modelled for the characters whose lower-case form is an ASCII letter, as all others become hyphens.
- Two attaches race on one outpost with every request answered; what a failing request does to one of them alone is in the reconcile.
- Command line, notifier, blueprint, YAML, secrets and the container runtime.
