/** A pass over a listing: what has become of the containers so far, and what is still ahead. */
module Pass {
  import opened Options
  import opened Authentik
  import opened Desired
  import opened Law
  import opened Namespace
  import opened Discovery
  import opened Reconciler
  import opened Sync
  import opened Neighbours
  import opened Processing
  import Sticky
  import Audit

  /** The container is acted on, and this is what it asks for. */
  ghost predicate ActedOn(settings: Settings, c: Container, f: Spec) {
    !settings.excluded(c) && IsEnabled(c) && f.enable && Means(c, Merged(c.labels), f) && Accepted(RulesOf(settings), c.labels, Merged(c.labels), f)
  }

  ghost predicate AmountsTo(settings: Settings, c: Container, app: Option<Spec>) {
    match app
    case Some(f) => ActedOn(settings, c, f)
    case None => forall f :: !ActedOn(settings, c, f)
  }

  lemma AmountsToOne(settings: Settings, c: Container, f: Spec, app: Option<Spec>)
    requires ActedOn(settings, c, f) && AmountsTo(settings, c, app)
    ensures app == Some(f)
  {
    OneMeaning(c, Merged(c.labels), f, app.value);
  }

  /** Acted on or not, by what was discovered. */
  lemma Decided(settings: Settings, c: Container, f: Spec)
    requires !settings.excluded(c) && IsEnabled(c) ==> f.enable && Means(c, Merged(c.labels), f)
    ensures AmountsTo(settings, c, if ActedOn(settings, c, f) then Some(f) else None)
  {
    hide Means, Accepted, IsEnabled, Merged;
    forall g | ActedOn(settings, c, g) ensures g == f {
      OneMeaning(c, Merged(c.labels), f, g);
    }
  }

  /** What is reported of a processed container: the errors of its labels when they keep it from being
      acted on, otherwise those of the reconcile and the audit. */
  ghost predicate Became(settings: Settings, c: Container, fleet: bool, outcome: Outcome, app: Option<Spec>, err: Option<Code>) {
    && AmountsTo(settings, c, app)
    && match outcome
       case Gone => false
       case Excluded => settings.excluded(c)
       case Disabled => !settings.excluded(c) && !IsEnabled(c)
       case Enabled(slug, _, findings) =>
         && !settings.excluded(c) && IsEnabled(c) && slug == SlugOf(c)
         && match app
            case None => exists f :: Means(c, Merged(c.labels), f) && ReportsComplaints(settings, c, f, findings)
            case Some(f) => exists audit :: ReportsRun(settings, c, f, fleet, err, audit, findings)
  }

  ghost predicate AllBecame(settings: Settings, listing: seq<Container>, fleet: bool, outcomes: seq<Outcome>, apps: seq<Option<Spec>>,
                            errs: seq<Option<Code>>) {
    && |outcomes| == |apps| == |errs| <= |listing|
    && forall i | 0 <= i < |outcomes| :: Became(settings, listing[i], fleet, outcomes[i], apps[i], errs[i])
  }

  lemma OneMoreBecame(settings: Settings, listing: seq<Container>, fleet: bool, outcomes: seq<Outcome>, apps: seq<Option<Spec>>,
                      errs: seq<Option<Code>>, outcome: Outcome, app: Option<Spec>, err: Option<Code>)
    requires AllBecame(settings, listing, fleet, outcomes, apps, errs) && |outcomes| < |listing|
    requires Became(settings, listing[|outcomes|], fleet, outcome, app, err)
    ensures AllBecame(settings, listing, fleet, outcomes + [outcome], apps + [app], errs + [err])
  {
    hide Became;
  }

  // The records.

  /** What the outcomes of a pass leave in the history and in the slugs, in the order of the listing. */
  ghost function RecordedAll(settings: Settings, slugs: map<string, string>, listing: seq<Container>, outcomes: seq<Outcome>, now: int)
    : (r: (seq<Sticky.Change>, map<string, string>))
    requires |outcomes| <= |listing|
    decreases |outcomes|
  {
    if outcomes == [] then ([], slugs)
    else
      var n := |outcomes| - 1;
      var (changes, before) := RecordedAll(settings, slugs, listing, outcomes[..n], now);
      var key := settings.identity(listing[n]);
      (changes + Recorded(before, key, outcomes[n], now), Remembered(before, key, outcomes[n]))
  }

  lemma OneMoreRecorded(settings: Settings, slugs: map<string, string>, listing: seq<Container>, outcomes: seq<Outcome>, outcome: Outcome, now: int)
    requires |outcomes| < |listing|
    ensures var (changes, before) := RecordedAll(settings, slugs, listing, outcomes, now);
            var key := settings.identity(listing[|outcomes|]);
            RecordedAll(settings, slugs, listing, outcomes + [outcome], now) ==
              (changes + Recorded(before, key, outcome, now), Remembered(before, key, outcome))
  {
    assert (outcomes + [outcome])[..|outcomes|] == outcomes;
  }

  /** What is announced of each container, given what was recorded of those before it. */
  ghost predicate AllAnnounced(settings: Settings, history: seq<Sticky.Change>, slugs: map<string, string>, listing: seq<Container>,
                               outcomes: seq<Outcome>, news: seq<seq<Sticky.StickyError>>, now: int) {
    && |news| == |outcomes| <= |listing|
    && forall i | 0 <= i < |outcomes| ::
         var (changes, before) := RecordedAll(settings, slugs, listing, outcomes[..i], now);
         Announces(news[i], history + changes, before, settings.identity(listing[i]), outcomes[i], now)
  }

  lemma OneMoreAnnounced(settings: Settings, history: seq<Sticky.Change>, slugs: map<string, string>, listing: seq<Container>,
                         outcomes: seq<Outcome>, news: seq<seq<Sticky.StickyError>>, now: int, outcome: Outcome, added: seq<Sticky.StickyError>)
    requires AllAnnounced(settings, history, slugs, listing, outcomes, news, now) && |outcomes| < |listing|
    requires var (changes, before) := RecordedAll(settings, slugs, listing, outcomes, now);
             Announces(added, history + changes, before, settings.identity(listing[|outcomes|]), outcome, now)
    ensures AllAnnounced(settings, history, slugs, listing, outcomes + [outcome], news + [added], now)
  {
    hide Announces, RecordedAll;
    var all := outcomes + [outcome];
    assert forall i | 0 <= i <= |outcomes| :: all[..i] == outcomes[..i];
    assert outcomes[..|outcomes|] == outcomes;
  }

  // The server.

  ghost predicate LastOfItsSlug(apps: seq<Option<Spec>>, i: nat)
    requires i < |apps| && apps[i].Some?
  {
    forall j | i < j < |apps| && apps[j].Some? :: apps[j].value.slug != apps[i].value.slug
  }

  /** Whoever's reconcile succeeded is converged, unless its slug was reconciled again for another one. */
  ghost predicate StillConverged(cfg: Config, lib: Library, apps: seq<Option<Spec>>, errs: seq<Option<Code>>, t: Tables) {
    |errs| == |apps| &&
    forall i | 0 <= i < |apps| && apps[i].Some? && errs[i].None? && LastOfItsSlug(apps, i) :: Converged(cfg, lib, apps[i].value, t)
  }

  lemma OneMoreConverged(cfg: Config, lib: Library, apps: seq<Option<Spec>>, errs: seq<Option<Code>>, t0: Tables, app: Option<Spec>,
                        err: Option<Code>, t: Tables)
    requires WellFormed(t0) && StillConverged(cfg, lib, apps, errs, t0)
    requires match app
             case Some(f) => Lawful(cfg, lib, f, t0, Entry(Read, t)) && (err.None? ==> Converged(cfg, lib, f, t))
             case None => t == t0
    ensures StillConverged(cfg, lib, apps + [app], errs + [err], t)
  {
    hide WellFormed, Lawful, Converged;
    var all := apps + [app];
    forall i | 0 <= i < |all| && all[i].Some? && (errs + [err])[i].None? && LastOfItsSlug(all, i) ensures Converged(cfg, lib, all[i].value, t) {
      if i < |apps| {
        assert forall j | i < j < |apps| :: all[j] == apps[j];
        if app.Some? {
          assert all[|apps|].value.slug != apps[i].value.slug;
          OthersStayConverged(cfg, lib, app.value, apps[i].value, t0, Entry(Read, t));
        }
      }
    }
  }

  /** Different slugs, and different hosts where both are forward-auth apps. */
  ghost predicate Apart(f: Spec, g: Spec) {
    f.slug != g.slug && (f.provider.ForwardAuth? && g.provider.ForwardAuth? ==> f.host != g.host)
  }

  ghost predicate ServedFromNow(cfg: Config, f: Spec, env: Env, clock: nat) {
    forall c: nat | clock <= c :: Served(cfg, f, env, c)
  }

  /** Nothing stands in the way of any of the containers, and no two are after the same slug or host. */
  ghost predicate AllCan(settings: Settings, lib: Library, env: Env, listing: seq<Container>, t: Tables, clock: nat) {
    && (forall c, f | c in listing && ActedOn(settings, c, f) :: Admissible(settings.cfg, lib, f, t) && ServedFromNow(settings.cfg, f, env, clock))
    && forall i, j, f, g | 0 <= i < j < |listing| && ActedOn(settings, listing[i], f) && ActedOn(settings, listing[j], g) :: Apart(f, g)
  }

  /** All that the listing asks for is there. */
  ghost predicate Settled(settings: Settings, lib: Library, listing: seq<Container>, t: Tables) {
    forall c, f | c in listing && ActedOn(settings, c, f) :: Converged(settings.cfg, lib, f, t)
  }

  /** Where all is settled and external hosts are unique, the next pass has nothing in its way. */
  lemma SettledCanAgain(settings: Settings, lib: Library, env: Env, listing: seq<Container>, start: Tables, since: nat, t: Tables, clock: nat)
    requires WellFormed(t) && HostsUnique(t) && Settled(settings, lib, listing, t)
    requires AllCan(settings, lib, env, listing, start, since) && since <= clock
    ensures AllCan(settings, lib, env, listing, t, clock)
  {
    hide WellFormed, HostsUnique, ActedOn, Converged, Admissible, Served, Apart, NoClaim;
    forall c, f | c in listing && ActedOn(settings, c, f) ensures Admissible(settings.cfg, lib, f, t) {
      ConvergedIsAdmissible(settings.cfg, lib, f, t);
    }
  }

  /** Half way through: everything acted on so far has succeeded, everything ahead still can. */
  ghost predicate HalfWay(settings: Settings, lib: Library, listing: seq<Container>, apps: seq<Option<Spec>>, errs: seq<Option<Code>>, t: Tables) {
    && |errs| == |apps| <= |listing|
    && (forall i | 0 <= i < |apps| :: AmountsTo(settings, listing[i], apps[i]))
    && (forall i | 0 <= i < |apps| && apps[i].Some? :: errs[i].None?)
    && forall i, f | |apps| <= i < |listing| && ActedOn(settings, listing[i], f) :: Admissible(settings.cfg, lib, f, t)
  }

  lemma OneStepFurther(settings: Settings, lib: Library, env: Env, listing: seq<Container>, apps: seq<Option<Spec>>, errs: seq<Option<Code>>,
                       start: Tables, clock: nat, t0: Tables, app: Option<Spec>, err: Option<Code>, t: Tables)
    requires AllCan(settings, lib, env, listing, start, clock) && WellFormed(t0)
    requires HalfWay(settings, lib, listing, apps, errs, t0) && |apps| < |listing| && AmountsTo(settings, listing[|apps|], app)
    requires match app
             case Some(f) => Lawful(settings.cfg, lib, f, t0, Entry(Read, t)) && err.None?
             case None => t == t0
    ensures HalfWay(settings, lib, listing, apps + [app], errs + [err], t)
  {
    hide WellFormed, Lawful, Admissible, ActedOn, AmountsTo, Served;
    var n := |apps|;
    assert app.Some? ==> ActedOn(settings, listing[n], app.value) by { AmountsMeans(settings, listing[n], app); }
    forall i, f | n < i < |listing| && ActedOn(settings, listing[i], f) ensures Admissible(settings.cfg, lib, f, t) {
      if app.Some? {
        assert Apart(app.value, f);
        OthersStayAdmissible(settings.cfg, lib, app.value, f, t0, Entry(Read, t));
      }
    }
  }

  lemma AmountsMeans(settings: Settings, c: Container, app: Option<Spec>)
    requires AmountsTo(settings, c, app)
    ensures app.Some? ==> ActedOn(settings, c, app.value)
  {
  }

  /** Before the first container. */
  lemma NothingPassed(settings: Settings, lib: Library, env: Env, listing: seq<Container>, fleet: bool, slugs: map<string, string>, now: int,
                      start: Tables, clock: nat)
    ensures AllBecame(settings, listing, fleet, [], [], []) && StillConverged(settings.cfg, lib, [], [], start)
    ensures AllCan(settings, lib, env, listing, start, clock) ==> HalfWay(settings, lib, listing, [], [], start)
    ensures RecordedAll(settings, slugs, listing, [], now) == ([], slugs)
    ensures forall history :: AllAnnounced(settings, history, slugs, listing, [], [], now)
  {
    hide ActedOn, Admissible, ServedFromNow, Apart;
    if AllCan(settings, lib, env, listing, start, clock) {
      assert forall i | 0 <= i < |listing| :: listing[i] in listing;
    }
  }

  /** The next container can be reconciled now. */
  lemma NextCan(settings: Settings, lib: Library, env: Env, listing: seq<Container>, apps: seq<Option<Spec>>, errs: seq<Option<Code>>,
                start: Tables, since: nat, t: Tables, clock: nat)
    requires |apps| < |listing| && since <= clock
    ensures AllCan(settings, lib, env, listing, start, since) && HalfWay(settings, lib, listing, apps, errs, t) ==>
              forall f | ActedOn(settings, listing[|apps|], f) :: Admissible(settings.cfg, lib, f, t) && Served(settings.cfg, f, env, clock)
  {
    hide ActedOn, Admissible, Served, Apart;
    assert listing[|apps|] in listing;
  }

  lemma CalmLater(env: Env, from: nat, later: nat)
    requires from <= later
    ensures Calm(env, from) ==> Calm(env, later)
  {
  }

  /** What a processed container became. */
  lemma Processed(settings: Settings, c: Container, fleet: bool, outcome: Outcome, f: Spec, err: Option<Code>, audit: Option<Audit.Report>)
    requires outcome.Excluded? <==> settings.excluded(c)
    requires !settings.excluded(c) ==> (outcome.Enabled? <==> IsEnabled(c)) && (outcome.Disabled? <==> !IsEnabled(c))
    requires outcome.Enabled? ==> f.enable && Means(c, Merged(c.labels), f) && outcome.slug == f.slug
    requires outcome.Enabled? && !Accepted(RulesOf(settings), c.labels, Merged(c.labels), f) ==> ReportsComplaints(settings, c, f, outcome.findings)
    requires outcome.Enabled? && Accepted(RulesOf(settings), c.labels, Merged(c.labels), f) ==>
               ReportsRun(settings, c, f, fleet, err, audit, outcome.findings)
    ensures ActedOn(settings, c, f) <==> outcome.Enabled? && Accepted(RulesOf(settings), c.labels, Merged(c.labels), f)
    ensures var app := if ActedOn(settings, c, f) then Some(f) else None;
            AmountsTo(settings, c, app) && Became(settings, c, fleet, outcome, app, err)
  {
    hide IsEnabled, Means, Accepted, SlugOf, Merged, ReportsComplaints, ReportsRun;
    Decided(settings, c, f);
    if outcome.Enabled? {
      MeansSlug(c, f);
    }
  }

  lemma SettledStays(settings: Settings, lib: Library, listing: seq<Container>, i: nat, t0: Tables, app: Option<Spec>, t: Tables)
    requires i < |listing| && (app.Some? ==> ActedOn(settings, listing[i], app.value))
    requires match app
             case Some(f) => Lawful(settings.cfg, lib, f, t0, Entry(Read, t))
             case None => t == t0
    ensures Settled(settings, lib, listing, t0) ==> t == t0
  {
    hide Converged, ActedOn;
    if app.Some? && Settled(settings, lib, listing, t0) {
      assert Converged(settings.cfg, lib, app.value, t0);
    }
  }

  lemma PassGoesOn(settings: Settings, lib: Library, env: Env, listing: seq<Container>, apps: seq<Option<Spec>>, errs: seq<Option<Code>>,
                   start: Tables, since: nat, t0: Tables, app: Option<Spec>, err: Option<Code>, t: Tables)
    requires WellFormed(t0) && StillConverged(settings.cfg, lib, apps, errs, t0)
    requires |apps| < |listing| && AmountsTo(settings, listing[|apps|], app)
    requires match app
             case Some(f) => Lawful(settings.cfg, lib, f, t0, Entry(Read, t)) && (err.None? ==> Converged(settings.cfg, lib, f, t))
             case None => t == t0
    ensures StillConverged(settings.cfg, lib, apps + [app], errs + [err], t)
    ensures AllCan(settings, lib, env, listing, start, since) && HalfWay(settings, lib, listing, apps, errs, t0) && (app.Some? ==> err.None?) ==>
              HalfWay(settings, lib, listing, apps + [app], errs + [err], t)
    ensures Settled(settings, lib, listing, t0) ==> t == t0
  {
    hide WellFormed, Converged, StillConverged, AllCan, HalfWay, AmountsTo, ActedOn;
    AmountsMeans(settings, listing[|apps|], app);
    SettledStays(settings, lib, listing, |apps|, t0, app, t);
    hide Lawful, Settled;
    OneMoreConverged(settings.cfg, lib, apps, errs, t0, app, err, t);
    if AllCan(settings, lib, env, listing, start, since) && HalfWay(settings, lib, listing, apps, errs, t0) && (app.Some? ==> err.None?) {
      OneStepFurther(settings, lib, env, listing, apps, errs, start, since, t0, app, err, t);
    }
  }

  /** At the end of such a pass all that were acted on are converged. */
  lemma AllConverged(settings: Settings, lib: Library, env: Env, listing: seq<Container>, apps: seq<Option<Spec>>, errs: seq<Option<Code>>,
                     start: Tables, clock: nat, t: Tables)
    requires AllCan(settings, lib, env, listing, start, clock)
    requires HalfWay(settings, lib, listing, apps, errs, t) && |apps| == |listing| && StillConverged(settings.cfg, lib, apps, errs, t)
    ensures Settled(settings, lib, listing, t)
  {
    hide Admissible, ActedOn, AmountsTo, ServedFromNow, Converged;
    forall c, f | c in listing && ActedOn(settings, c, f) ensures Converged(settings.cfg, lib, f, t) {
      var i :| 0 <= i < |listing| && listing[i] == c;
      AmountsToOne(settings, c, f, apps[i]);
      forall j | i < j < |apps| && apps[j].Some? ensures apps[j].value.slug != f.slug {
        AmountsMeans(settings, listing[j], apps[j]);
        assert Apart(f, apps[j].value);
      }
      assert LastOfItsSlug(apps, i);
    }
  }
}
