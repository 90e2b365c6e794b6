/** The worker's jobs: processed containers and what they leave in the daemon's records. */
module Worker {
  import opened Options
  import opened Authentik
  import opened Desired
  import opened Law
  import opened Routers
  import opened Namespace
  import opened Discovery
  import opened Reconciler
  import opened Cleanup
  import opened Sync
  import opened Fleet
  import opened Processing
  import opened Pass
  import Sticky

  // The job, and the worker.

  /** A job with what happens around it. For one service: what inspecting its container gave, what listing them all gives afterwards,
      whether a fleet-wide callback is known, and the time. */
  datatype Round =
    | SyncOne(key: string, inspected: Option<Container>, listing: Option<seq<Container>>, fleet: bool, now: int)
    | SyncAll(listing: Option<seq<Container>>, fleet: bool, now: int)

  /** What a job leaves once its containers are recorded: with a listing, the retention of the slugs that some container asks for
      and the scan's reports. */
  ghost predicate Refreshed(settings: Settings, listing: Option<seq<Container>>, recorded: seq<Sticky.Change>, history: seq<Sticky.Change>,
                            t: Tables, before: seq<Orphan>, orphans: seq<Orphan>, alerts: seq<Orphan>, scanned: bool) {
    match listing
    case None => history == recorded && orphans == before && alerts == []
    case Some(all) => exists slugs ::
      && history == recorded + [Sticky.Retain(slugs)] && (forall s :: s in slugs <==> WantedBySome(settings, all, s))
      && ScanReports(t, slugs, before, orphans, alerts, scanned)
  }

  /** What a reconcile of the app, if there is one, owes the state it started from. */
  ghost predicate Acted(cfg: Config, lib: Library, env: Env, app: Option<Spec>, err: Option<Code>, t0: Tables, calls: nat, clock: nat, t: Tables) {
    match app
    case None => t == t0
    case Some(f) =>
      && Lawful(cfg, lib, f, t0, Entry(Read, t)) && (err.None? ==> Converged(cfg, lib, f, t))
      && (Calm(env, calls) && Admissible(cfg, lib, f, t0) && Served(cfg, f, env, clock) ==> err.None?)
  }

  /** The job for one service. */
  method RunOne(records: Records, api: Server, settings: Settings, job: Round)
    returns (added: seq<Sticky.StickyError>, alerts: seq<Orphan>, ghost outcome: Outcome, ghost scanned: bool, ghost app: Option<Spec>,
             ghost err: Option<Code>)
    requires records.Valid() && api.Valid() && job.SyncOne?
    modifies records`orphans, records`history, records`slugByKey, records.sticky, api`tables, api`calls, api`trace, api`clock
    ensures records.Valid() && api.Valid() && old(api.trace) <= api.trace
    ensures Preserved(old(api.tables), api.trace, |old(api.trace)|, api.tables)
    // An enabled container with acceptable labels is reconciled, and nothing else moves the server.
    ensures job.inspected.Some? ==> Became(settings, job.inspected.value, job.fleet, outcome, app, err)
    ensures Acted(settings.cfg, api.lib, api.env, app, err, old(api.tables), old(api.calls), old(api.clock), api.tables)
    ensures job.inspected.None? ==> app.None?
    ensures (job.inspected.None? || settings.excluded(job.inspected.value) || !IsEnabled(job.inspected.value)) ==> api.tables == old(api.tables)
    ensures match job.inspected
            case None => outcome.Gone?
            case Some(c) => outcome.Excluded? == settings.excluded(c) && (!settings.excluded(c) ==> outcome.Enabled? == IsEnabled(c) && !outcome.Gone?)
    ensures var key := if job.inspected.Some? then settings.identity(job.inspected.value) else job.key;
            records.slugByKey == Remembered(old(records.slugByKey), key, outcome)
    ensures var key := if job.inspected.Some? then settings.identity(job.inspected.value) else job.key;
            && Announces(added, old(records.history), old(records.slugByKey), key, outcome, job.now)
            && Refreshed(settings, job.listing, old(records.history) + Recorded(old(records.slugByKey), key, outcome, job.now), records.history,
                         api.tables, old(records.orphans), records.orphans, alerts, scanned)
    ensures job.listing.Some? && Calm(api.env, old(api.calls)) ==> scanned
    // With a listing, errors stand only for slugs some container still asks for.
    ensures job.listing.Some? ==> forall s | s in records.sticky.bySlug :: WantedBySome(settings, job.listing.value, s)
  {
    hide WellFormed, Preserved, Lawful, LawfulSince, Converged, Accepted, Means, Wanted, WantedBySome,
         Recorded, Remembered, Sticky.Changed, Sticky.After, Merged, ReportsComplaints, ReportsRun, Get, Announces, ScanReports, Calm,
         Became, ActedOn, Admissible, Served, IsEnabled;
    var key := job.key;
    NothingMoved(api.trace, api.tables);
    outcome, app, err := Gone, None, None;
    var what := Gone;
    if job.inspected.Some? {
      key := settings.identity(job.inspected.value);
      ghost var f, failed, audit;
      what, f, failed, audit := ProcessContainer(api, settings, job.inspected.value, job.fleet);
      Processed(settings, job.inspected.value, job.fleet, what, f, failed, audit);
      outcome, app, err := what, if ActedOn(settings, job.inspected.value, f) then Some(f) else None, failed;
    }
    var enabled: Option<seq<string>> := None;
    if job.listing.Some? {
      var slugs := EnabledSlugs(settings, job.listing.value);
      enabled := Some(slugs);
    }
    ghost var t1, before := api.tables, api.trace;
    CalmLater(api.env, old(api.calls), api.calls);
    added, alerts, scanned := records.SyncKey(api, key, what, enabled, job.now);
    ReadsPreserve(old(api.tables), api.trace, |old(api.trace)|, before, t1);
  }

  /** The pass over the whole fleet: every container is processed on its own, whatever became of the
      others. */
  method FullPass(records: Records, api: Server, settings: Settings, job: Round)
    returns (news: seq<seq<Sticky.StickyError>>, alerts: seq<Orphan>, ghost outcomes: seq<Outcome>, ghost apps: seq<Option<Spec>>,
             ghost errs: seq<Option<Code>>, ghost scanned: bool)
    requires records.Valid() && api.Valid() && job.SyncAll?
    modifies records`orphans, records`history, records`slugByKey, records.sticky, api`tables, api`calls, api`trace, api`clock
    ensures records.Valid() && api.Valid() && old(api.trace) <= api.trace
    ensures Preserved(old(api.tables), api.trace, |old(api.trace)|, api.tables)
    ensures job.listing.Some? ==> forall s | s in records.sticky.bySlug :: WantedBySome(settings, job.listing.value, s)
    ensures job.listing.None? ==> api.tables == old(api.tables) && records.history == old(records.history) && records.slugByKey == old(records.slugByKey)
    // Every container of the listing is processed, and recorded in its order.
    ensures job.listing.Some? ==>
              && AllBecame(settings, job.listing.value, job.fleet, outcomes, apps, errs) && |outcomes| == |job.listing.value|
              && var (changes, slugs) := RecordedAll(settings, old(records.slugByKey), job.listing.value, outcomes, job.now);
                 && records.slugByKey == slugs
                 && AllAnnounced(settings, old(records.history), old(records.slugByKey), job.listing.value, outcomes, news, job.now)
                 && Refreshed(settings, job.listing, old(records.history) + changes, records.history, api.tables, old(records.orphans), records.orphans,
                              alerts, scanned)
    ensures job.listing.Some? && Calm(api.env, old(api.calls)) ==> scanned
    ensures job.listing.None? ==> news == [] && alerts == [] && records.orphans == old(records.orphans)
    // Faults or not, whoever came through is converged at the end.
    ensures job.listing.Some? ==> StillConverged(settings.cfg, api.lib, apps, errs, api.tables)
    // Without faults all come through.
    ensures job.listing.Some? && Calm(api.env, old(api.calls))
              && AllCan(settings, api.lib, api.env, job.listing.value, old(api.tables), old(api.clock)) ==>
              Settled(settings, api.lib, job.listing.value, api.tables)
    // Where all is as it should be nothing moves, whatever fails.
    ensures job.listing.Some? && Settled(settings, api.lib, job.listing.value, old(api.tables)) ==> api.tables == old(api.tables)
  {
    hide WellFormed, Preserved, Lawful, LawfulSince, Converged, Accepted, Means,
         Wanted, WantedBySome, Recorded, Remembered, Sticky.Changed, Sticky.After, Merged, ReportsComplaints, ReportsRun, Get, Announces,
         ScanReports, AllAnnounced, IsEnabled, SlugOf, Became, AllBecame, RecordedAll, StillConverged, AllCan, HalfWay, ActedOn, AmountsTo, Calm, Served,
         Admissible, Records.Valid, Settled;
    news, alerts, outcomes, apps, errs, scanned := [], [], [], [], [], false;
    ghost var start, n := api.tables, |api.trace|;
    NothingMoved(api.trace, api.tables);
    if job.listing.None? {
      return;
    }
    var listing := job.listing.value;
    var enabled: seq<string> := [];
    NobodyWants(settings);
    NothingPassed(settings, api.lib, api.env, listing, job.fleet, old(records.slugByKey), job.now, start, api.clock);
    for i := 0 to |listing|
      invariant records.Valid() && api.Valid() && old(api.trace) <= api.trace && old(api.calls) <= api.calls && old(api.clock) <= api.clock
      invariant Preserved(start, api.trace, n, api.tables)
      invariant forall s :: s in enabled <==> WantedBySome(settings, listing[..i], s)
      invariant |outcomes| == |apps| == i
      invariant AllBecame(settings, listing, job.fleet, outcomes, apps, errs) && StillConverged(settings.cfg, api.lib, apps, errs, api.tables)
      invariant Calm(api.env, old(api.calls)) && AllCan(settings, api.lib, api.env, listing, start, old(api.clock)) ==>
                  HalfWay(settings, api.lib, listing, apps, errs, api.tables)
      invariant Settled(settings, api.lib, listing, start) ==> api.tables == start
      invariant records.history == old(records.history) + RecordedAll(settings, old(records.slugByKey), listing, outcomes, job.now).0
      invariant AllAnnounced(settings, old(records.history), old(records.slugByKey), listing, outcomes, news, job.now)
      invariant records.orphans == old(records.orphans)
      invariant records.slugByKey == RecordedAll(settings, old(records.slugByKey), listing, outcomes, job.now).1
    {
      ghost var t0, before, calls, clock := api.tables, api.trace, api.calls, api.clock;
      assert listing[..i + 1] == listing[..i] + [listing[i]];
      OneMoreListed(settings, listing[..i], listing[i]);
      NextCan(settings, api.lib, api.env, listing, apps, errs, start, old(api.clock), t0, clock);
      CalmLater(api.env, old(api.calls), calls);
      var outcome, f, err, audit := ProcessContainer(api, settings, listing[i], job.fleet);
      WantedMeans(settings, listing[i], outcome, f);
      StillPreserved(start, api.trace, n, before, t0, api.tables);
      ghost var app := if ActedOn(settings, listing[i], f) then Some(f) else None;
      Processed(settings, listing[i], job.fleet, outcome, f, err, audit);
      PassGoesOn(settings, api.lib, api.env, listing, apps, errs, start, old(api.clock), t0, app, err, api.tables);
      OneMoreBecame(settings, listing, job.fleet, outcomes, apps, errs, outcome, app, err);
      var added := records.Record(settings.identity(listing[i]), outcome, job.now);
      OneMoreAnnounced(settings, old(records.history), old(records.slugByKey), listing, outcomes, news, job.now, outcome, added);
      news := news + [added];
      OneMoreRecorded(settings, old(records.slugByKey), listing, outcomes, outcome, job.now);
      outcomes, apps, errs := outcomes + [outcome], apps + [app], errs + [err];
      if outcome.Enabled? {
        enabled := enabled + [outcome.slug];
      }
    }
    assert listing[..|listing|] == listing;
    ghost var t1, before := api.tables, api.trace;
    CalmLater(api.env, old(api.calls), api.calls);
    var done;
    alerts, done := records.RefreshOrphans(api, enabled);
    scanned := done;
    ReadsPreserve(start, api.trace, n, before, t1);
    if Calm(api.env, old(api.calls)) && AllCan(settings, api.lib, api.env, listing, start, old(api.clock)) {
      AllConverged(settings, api.lib, api.env, listing, apps, errs, start, old(api.clock), api.tables);
    }
  }

  /** What one job achieves, from one moment to the next, when no request fails: the container it is about, or all of them. */
  ghost predicate RoundDone(settings: Settings, lib: Library, env: Env, job: Round, before: Moment, after: Moment) {
    Calm(env, before.calls) ==>
      match job
      case SyncOne(_, inspected, _, _, _) =>
        inspected.Some? ==> forall f | ActedOn(settings, inspected.value, f) && Admissible(settings.cfg, lib, f, before.tables)
                                       && Served(settings.cfg, f, env, before.clock) :: Converged(settings.cfg, lib, f, after.tables)
      case SyncAll(listing, _, _) =>
        listing.Some? && AllCan(settings, lib, env, listing.value, before.tables, before.clock) ==> Settled(settings, lib, listing.value, after.tables)
  }

  lemma OneIsDone(settings: Settings, lib: Library, env: Env, c: Container, fleet: bool, outcome: Outcome, app: Option<Spec>, err: Option<Code>,
                  t0: Tables, calls: nat, clock: nat, t: Tables)
    requires Became(settings, c, fleet, outcome, app, err) && Acted(settings.cfg, lib, env, app, err, t0, calls, clock, t) && Calm(env, calls)
    ensures forall f | ActedOn(settings, c, f) && Admissible(settings.cfg, lib, f, t0) && Served(settings.cfg, f, env, clock) ::
              Converged(settings.cfg, lib, f, t)
  {
    hide ActedOn, Admissible, Served, Converged, Lawful, Calm, AmountsTo;
    forall f | ActedOn(settings, c, f) && Admissible(settings.cfg, lib, f, t0) && Served(settings.cfg, f, env, clock)
      ensures Converged(settings.cfg, lib, f, t)
    {
      AmountsToOne(settings, c, f, app);
    }
  }

  method RunJob(records: Records, api: Server, settings: Settings, job: Round)
    requires records.Valid() && api.Valid()
    modifies records`orphans, records`history, records`slugByKey, records.sticky, api`tables, api`calls, api`trace, api`clock
    ensures records.Valid() && api.Valid() && old(api.trace) <= api.trace
    ensures Preserved(old(api.tables), api.trace, |old(api.trace)|, api.tables)
    ensures job.listing.Some? ==> forall s | s in records.sticky.bySlug :: WantedBySome(settings, job.listing.value, s)
    ensures RoundDone(settings, api.lib, api.env, job, Moment(old(api.tables), old(api.calls), |old(api.trace)|, old(api.clock)),
                      Moment(api.tables, api.calls, |api.trace|, api.clock))
  {
    hide WellFormed, Preserved, WantedBySome, Recorded, Remembered, IsEnabled, Sticky.Changed, Sticky.After, ActedOn, Admissible, Served,
         Converged, Became, Acted, AllCan, Settled, AllBecame, AllAnnounced, RecordedAll, Refreshed, Announces, Calm, StillConverged;
    if job.SyncOne? {
      var _, _, outcome, scanned, app, err := RunOne(records, api, settings, job);
      if job.inspected.Some? && Calm(api.env, old(api.calls)) {
        OneIsDone(settings, api.lib, api.env, job.inspected.value, job.fleet, outcome, app, err, old(api.tables), old(api.calls), old(api.clock),
                  api.tables);
      }
    } else {
      var _, _, _, _, _, _ := FullPass(records, api, settings, job);
    }
  }

  /** The worker over any sequence of jobs: whatever the labels say and whatever fails, nothing that is
      listed is ever unlisted, hosts stay unique, and the records stay what their history makes them; each job achieves
      what it is for. */
  method Work(records: Records, api: Server, settings: Settings, jobs: seq<Round>) returns (ghost moments: seq<Moment>)
    requires records.Valid() && api.Valid()
    modifies records`orphans, records`history, records`slugByKey, records.sticky, api`tables, api`calls, api`trace, api`clock
    ensures records.Valid() && api.Valid() && old(api.trace) <= api.trace
    ensures Preserved(old(api.tables), api.trace, |old(api.trace)|, api.tables)
    ensures jobs != [] && jobs[|jobs| - 1].listing.Some? ==>
              forall s | s in records.sticky.bySlug :: WantedBySome(settings, jobs[|jobs| - 1].listing.value, s)
    ensures |moments| == |jobs| + 1 && moments[0].tables == old(api.tables) && moments[|jobs|].tables == api.tables
    ensures forall i | 0 <= i < |jobs| :: RoundDone(settings, api.lib, api.env, jobs[i], moments[i], moments[i + 1])
  {
    hide WellFormed, Preserved, Wanted, WantedBySome, Recorded, Remembered, Merged, Get,
         Sticky.Changed, Sticky.After, RoundDone;
    NothingMoved(api.trace, api.tables);
    moments := [Moment(api.tables, api.calls, |api.trace|, api.clock)];
    for i := 0 to |jobs|
      invariant records.Valid() && api.Valid() && old(api.trace) <= api.trace
      invariant Preserved(old(api.tables), api.trace, |old(api.trace)|, api.tables)
      invariant i > 0 && jobs[i - 1].listing.Some? ==>
                  forall s | s in records.sticky.bySlug :: WantedBySome(settings, jobs[i - 1].listing.value, s)
      invariant |moments| == i + 1 && moments[0].tables == old(api.tables)
      invariant moments[i] == Moment(api.tables, api.calls, |api.trace|, api.clock)
      invariant forall k | 0 <= k < i :: RoundDone(settings, api.lib, api.env, jobs[k], moments[k], moments[k + 1])
    {
      ghost var t0, before := api.tables, api.trace;
      RunJob(records, api, settings, jobs[i]);
      StillPreserved(old(api.tables), api.trace, |old(api.trace)|, before, t0, api.tables);
      moments := moments + [Moment(api.tables, api.calls, |api.trace|, api.clock)];
    }
  }
}
