/** The body of a worker job as far as the daemon's own records go: standing errors, the slug each
    service last had, and which orphans have been alerted. */
module Sync {
  import opened Options
  import opened Authentik
  import opened Desired
  import opened Lookups
  import opened Text
  import opened Routers
  import opened Cleanup
  import opened Sticky

  // Orphan identity.

  function KindName(k: ProviderType): string {
    match k
    case ForwardAuth => "forwardauth"
    case Oidc => "oidc"
    case Saml => "saml"
    case Unrecognised => ""
  }

  /** What the alert de-duplication goes by. */
  function OrphanKey(o: Orphan): string {
    KindName(o.kind) + ":" + Itoa(o.pk) + ":" + o.slug
  }

  predicate SameOrphan(a: Orphan, b: Orphan) {
    a.kind == b.kind && a.pk == b.pk && a.slug == b.slug
  }

  lemma UpToColon(a: string, b: string, x: string, y: string)
    requires ':' !in a && ':' !in b && a + ":" + x == b + ":" + y
    ensures a == b && x == y
  {
    FirstIndex(a, ':', x);
    FirstIndex(b, ':', y);
    assert a == (a + ":" + x)[..|a|] && x == (a + ":" + x)[|a| + 1..];
    assert b == (b + ":" + y)[..|b|] && y == (b + ":" + y)[|b| + 1..];
  }

  /** Two orphans share a key exactly when they are the same provider, of the same type, behind the
      same slug. Whether it is still attached makes no difference. */
  lemma KeyIdentifies(a: Orphan, b: Orphan)
    requires a.pk <= MAX64 && b.pk <= MAX64
    ensures OrphanKey(a) == OrphanKey(b) <==> SameOrphan(a, b)
  {
    if OrphanKey(a) == OrphanKey(b) {
      var restA, restB := Itoa(a.pk) + ":" + a.slug, Itoa(b.pk) + ":" + b.slug;
      assert OrphanKey(a) == KindName(a.kind) + ":" + restA && OrphanKey(b) == KindName(b.kind) + ":" + restB;
      UpToColon(KindName(a.kind), KindName(b.kind), restA, restB);
      UpToColon(Itoa(a.pk), Itoa(b.pk), a.slug, b.slug);
      PrintedIsRead(a.pk);
      PrintedIsRead(b.pk);
      assert |KindName(ForwardAuth)| == 11 && |KindName(Oidc)| == 4 && KindName(Oidc)[0] == 'o' && KindName(Saml)[0] == 's';
    }
  }

  predicate Alerted(seen: seq<Orphan>, o: Orphan) {
    exists i :: 0 <= i < |seen| && OrphanKey(seen[i]) == OrphanKey(o)
  }

  // The job body.

  /** What became of the container a job is about: gone, not opted in, one of Authentik's or aboard's own, or enabled with
      these findings from discovery, reconcile and audit. */
  datatype Outcome = Gone | Disabled | Excluded | Enabled(slug: string, service: string, findings: seq<Finding>)

  function Recorded(slugs: map<string, string>, key: string, outcome: Outcome, now: int): seq<Change> {
    match outcome
    case Enabled(slug, service, findings) => [Replace(slug, service, findings, now)]
    case Excluded => []
    case _ => if key in slugs then [Clear(slugs[key])] else []
  }

  function Remembered(slugs: map<string, string>, key: string, outcome: Outcome): map<string, string> {
    match outcome
    case Enabled(slug, _, _) => slugs[key := slug]
    case Excluded => slugs
    case _ => slugs - {key}
  }

  /** What is announced of a job: the errors it found that were not standing before, which is where their streaks begin. */
  ghost predicate Announces(added: seq<StickyError>, history: seq<Change>, slugs: map<string, string>, key: string, outcome: Outcome, now: int) {
    match outcome
    case Enabled(slug, service, findings) =>
      && (forall e | e in added :: e.slug == slug && e.service == service && e.firstSeen == now)
      && (forall c :: (exists e :: e in added && e.code == c) <==>
                        (exists f :: f in findings && f.severity.Error? && f.code == c) && c !in Of(After(history), slug))
      && (forall c :: (exists e :: e in added && e.code == c) <==> Began(history + Recorded(slugs, key, outcome, now), |history|, slug, c))
    case _ => added == []
  }

  /** What a scan makes of the orphans of the last one: all there are, the new ones alerted; a failed scan changes nothing. */
  ghost predicate ScanReports(t: Tables, enabled: seq<string>, before: seq<Orphan>, orphans: seq<Orphan>, alerts: seq<Orphan>, scanned: bool) {
    if scanned then
      && (forall o | o in orphans :: Describes(t, o) && IsOrphan(t, enabled, o.pk))
      && (forall p | IsOrphan(t, enabled, p) :: exists o :: o in orphans && o.pk == p)
      && (forall o :: o in alerts <==> o in orphans && !Alerted(before, o))
    else orphans == before && alerts == []
  }

  class Records {
    const sticky: StickySet
    var slugByKey: map<string, string>
    var orphans: seq<Orphan>
    ghost var history: seq<Change>

    /** The standing errors are what the whole history makes them. */
    ghost predicate Valid()
      reads this, sticky
    {
      sticky.bySlug == After(history)
    }

    constructor ()
      ensures Valid() && fresh(sticky) && history == [] && orphans == [] && slugByKey == map[]
    {
      sticky := new StickySet();
      slugByKey, orphans, history := map[], [], [];
    }

    /** Drops the errors of slugs that are no longer enabled and scans for orphans. `alerts` are those
        that were not there at the last scan; a failed scan keeps the last one. */
    method RefreshOrphans(api: Server, enabled: seq<string>) returns (alerts: seq<Orphan>, scanned: bool)
      requires Valid() && api.Valid()
      modifies this`orphans, this`history, sticky, api`calls, api`trace
      ensures Valid() && history == old(history) + [Retain(enabled)]
      ensures forall s | s in sticky.bySlug :: s in enabled
      ensures Looked(api, scanned)
      ensures ScanReports(api.tables, enabled, old(orphans), orphans, alerts, scanned)
    {
      hide IsOrphan, Describes, Alerted, NoAdjacentInversion, WellFormed, Changed, After;
      OneMoreChange(history, Retain(enabled));
      OnlyEnabledStand(history, enabled);
      sticky.RetainSlugs(enabled);
      history := history + [Retain(enabled)];
      var r := Orphans(api, enabled);
      alerts, scanned := [], r.Answer?;
      if scanned {
        alerts := NewOrphans(orphans, r.value);
        orphans := r.value;
      }
    }

    /** Records what became of the container of one job. */
    method Record(key: string, outcome: Outcome, now: int) returns (added: seq<Sticky.StickyError>)
      requires Valid()
      modifies this`history, this`slugByKey, sticky
      ensures Valid() && slugByKey == Remembered(old(slugByKey), key, outcome)
      ensures history == old(history) + Recorded(old(slugByKey), key, outcome, now)
      ensures Announces(added, old(history), old(slugByKey), key, outcome, now)
      // The errors found stand, and no others of the slug.
      ensures outcome.Enabled? ==> forall c :: c in Of(sticky.bySlug, outcome.slug) <==>
                                     exists f :: f in outcome.findings && f.severity.Error? && f.code == c
    {
      hide Changed, Began, After, Codes, Announces;
      ghost var was, slugs := history, slugByKey;
      added := [];
      if outcome.Enabled? {
        OneMoreChange(history, Replace(outcome.slug, outcome.service, outcome.findings, now));
        ReplacedStand(After(was), outcome.slug, outcome.service, outcome.findings, now);
        CodesAsWritten(outcome.findings);
        added := sticky.ReplaceSlug(outcome.slug, outcome.service, outcome.findings, now);
        slugByKey := slugByKey[key := outcome.slug];
        history := history + [Replace(outcome.slug, outcome.service, outcome.findings, now)];
        AddedIsAnnounced(added, was, slugs, key, outcome, now);
      } else if !outcome.Excluded? && key in slugByKey {
        OneMoreChange(history, Clear(slugByKey[key]));
        sticky.ClearSlug(slugByKey[key]);
        history := history + [Clear(slugByKey[key])];
        slugByKey := slugByKey - {key};
        NothingAnnounced(was, slugs, key, outcome, now);
      } else {
        assert history == was + [];
        NothingAnnounced(was, slugs, key, outcome, now);
      }
    }

    /** One job: records what became of the container, then refreshes from the listing if there is
        one. `added` are the errors that started standing. */
    method SyncKey(api: Server, key: string, outcome: Outcome, listing: Option<seq<string>>, now: int)
      returns (added: seq<Sticky.StickyError>, alerts: seq<Orphan>, ghost scanned: bool)
      requires Valid() && api.Valid()
      modifies this`orphans, this`history, this`slugByKey, sticky, api`calls, api`trace
      ensures Valid() && slugByKey == Remembered(old(slugByKey), key, outcome)
      ensures history == old(history) + Recorded(old(slugByKey), key, outcome, now) + if listing.Some? then [Retain(listing.value)] else []
      ensures Announces(added, old(history), old(slugByKey), key, outcome, now)
      ensures listing.Some? ==> ScanReports(api.tables, listing.value, old(orphans), orphans, alerts, scanned)
      ensures listing.Some? && Calm(api.env, old(api.calls)) ==> scanned
      ensures listing.None? ==> orphans == old(orphans) && alerts == [] && api.trace == old(api.trace)
      ensures listing.Some? ==> forall s | s in sticky.bySlug :: s in listing.value
      ensures old(api.trace) <= api.trace && Reads(api.trace, |old(api.trace)|, api.tables)
    {
      hide Changed, Announces, ScanReports, After, Recorded, Remembered, WellFormed;
      added := Record(key, outcome, now);
      alerts, scanned := [], false;
      if listing.Some? {
        var done;
        alerts, done := RefreshOrphans(api, listing.value);
        scanned := done;
      } else {
        assert history + [] == history;
      }
    }
  }

  method NewOrphans(seen: seq<Orphan>, found: seq<Orphan>) returns (alerts: seq<Orphan>)
    ensures forall o :: o in alerts <==> o in found && !Alerted(seen, o)
  {
    alerts := [];
    for i := 0 to |found|
      invariant forall o :: o in alerts <==> o in found[..i] && !Alerted(seen, o)
    {
      assert found[..i + 1] == found[..i] + [found[i]];
      if !Alerted(seen, found[i]) {
        alerts := alerts + [found[i]];
      }
    }
    assert found[..|found|] == found;
  }

  lemma OneMoreChange(history: seq<Change>, c: Change)
    ensures After(history + [c]) == Changed(After(history), c)
  {
    assert (history + [c])[..|history|] == history;
  }

  lemma AddedIsAnnounced(added: seq<StickyError>, history: seq<Change>, slugs: map<string, string>, key: string, outcome: Outcome, now: int)
    requires outcome.Enabled?
    requires forall e | e in added :: e.slug == outcome.slug && e.service == outcome.service && e.firstSeen == now
    requires forall c :: (exists e :: e in added && e.code == c) <==> c in Codes(outcome.findings) && c !in Of(After(history), outcome.slug)
    ensures Announces(added, history, slugs, key, outcome, now)
  {
    hide Began, After, Of;
    CodesAsWritten(outcome.findings);
    forall c
      ensures c in Codes(outcome.findings) && c !in Of(After(history), outcome.slug) <==>
              Began(history + Recorded(slugs, key, outcome, now), |history|, outcome.slug, c)
    {
      AddedWhenAStreakBegins(history, outcome.slug, outcome.service, outcome.findings, now, c);
    }
    hide Codes, Recorded;
  }

  lemma NothingAnnounced(history: seq<Change>, slugs: map<string, string>, key: string, outcome: Outcome, now: int)
    requires !outcome.Enabled?
    ensures Announces([], history, slugs, key, outcome, now)
  {
  }

  lemma CodesAsWritten(findings: seq<Finding>)
    ensures forall c :: c in Codes(findings) <==> exists f :: f in findings && f.severity.Error? && f.code == c
  {
  }

  lemma ReplacedStand(m: map<string, Entries>, slug: string, service: string, findings: seq<Finding>, now: int)
    ensures Of(Changed(m, Replace(slug, service, findings, now)), slug).Keys == Codes(findings)
  {
  }

  /** Once its container is gone nothing stands for a slug, with or without a listing. */
  lemma GoneStandsForNothing(history: seq<Change>, slugs: map<string, string>, key: string, now: int, later: seq<Change>)
    requires key in slugs && |later| <= 1 && forall i | 0 <= i < |later| :: later[i].Retain?
    ensures slugs[key] !in After(history + Recorded(slugs, key, Gone, now) + later)
  {
    var cleared := history + Recorded(slugs, key, Gone, now);
    assert cleared[..|cleared| - 1] == history;
    if later != [] {
      var all := cleared + later;
      assert all[..|all| - 1] == cleared;
    } else {
      assert cleared + later == cleared;
    }
  }

  /** Of the errors that stand, a container that goes takes exactly those of its own slug, even where
      another container still carries that slug. */
  lemma SharedSlugIsClearedToo(history: seq<Change>, slugs: map<string, string>, key: string, slug: string, code: string, now: int)
    requires key in slugs && OnAStreak(history, slug, code)
    ensures code in Of(After(history), slug)
    ensures code in Of(After(history + Recorded(slugs, key, Gone, now)), slug) <==> slug != slugs[key]
  {
    FirstSeenIsTheBeginning(history, slug, code);
    OneMoreChange(history, Clear(slugs[key]));
  }

  const TWO_CONTAINERS: map<string, string> := map["a" := "s", "b" := "s"]
  const BROKEN := [Finding(Error, "host-missing", "")]

  /** The second container's error stands, the first container goes, and the error is gone although the
      second container still carries the slug. */
  lemma TheOtherStillCarriesIt()
    ensures var history := [Replace("s", "b", BROKEN, 0)];
            && "host-missing" in Of(After(history), "s")
            && Remembered(TWO_CONTAINERS, "a", Gone) == map["b" := "s"]
            && "host-missing" !in Of(After(history + Recorded(TWO_CONTAINERS, "a", Gone, 1)), "s")
  {
    var history := [Replace("s", "b", BROKEN, 0)];
    assert BROKEN[0] in BROKEN && "host-missing" in Codes(BROKEN);
    assert history[..0] == [];
    OneMoreChange(history, Clear("s"));
    assert history + Recorded(TWO_CONTAINERS, "a", Gone, 1) == history + [Clear("s")];
  }
}
