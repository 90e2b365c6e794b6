/** One container from its labels through reconcile and audit to what is reported of it, and the slugs a
    listing asks for. */
module Processing {
  import opened Options
  import opened Authentik
  import opened Desired
  import opened Law
  import opened Routers
  import opened Namespace
  import opened Slug
  import opened Grammar
  import opened Discovery
  import opened Reconciler
  import Rows
  import GoLive
  import Audit
  import opened Sync
  import opened Fleet
  import Sticky

  /** The loaded configuration as all parts see it, and the two questions about a container that are
      answered elsewhere: is it one of Authentik's or aboard's own, and which service is it. */
  datatype Settings = Settings(cfg: Config, traefik: bool, absolute: string -> bool, middleware: string, url: string,
                               excluded: Container -> bool, identity: Container -> string)

  function RulesOf(settings: Settings): Rules {
    Rules(settings.traefik, settings.absolute)
  }

  function SetupOf(settings: Settings): Audit.Setup {
    Audit.Setup(settings.traefik, settings.middleware, settings.url)
  }

  // Codes as they are filed.

  function ComplaintName(x: Complaint): string {
    match x
    case Conflict => "conflict"
    case Unarmed => "unarmed"
    case UnknownSuffix => "unknown-suffix"
    case Reserved => "reserved"
    case IndexedInvalid => "indexed-invalid"
    case IndexedConflict => "indexed-conflict"
    case SlugInvalid => "slug-invalid"
    case ProviderInvalid => "provider-invalid"
    case HostInvalid => "host-invalid"
    case HostMissing => "host-missing"
    case HostAmbiguous => "host-ambiguous"
    case GroupsClaimInvalid => "groups-claim-invalid"
    case RequireInvalid => "require-invalid"
    case WrongProvider => "wrong-provider"
    case ProxyNoneTraefik => "proxy-none-traefik"
    case ClientInvalid => "client-invalid"
    case RedirectInvalid => "oidc-redirect-invalid"
    case RedirectMissing => "oidc-redirect-missing"
    case SecretMissing => "oidc-secret-missing"
    case SecretForbidden => "oidc-secret-forbidden"
    case BindingInvalid => "saml-binding-invalid"
    case AcsMissing => "saml-acs-missing"
    case AcsInvalid => "saml-acs-invalid"
  }

  function CodeName(c: Code): string {
    match c
    case FlowMissing => "flow-missing"
    case GroupMissing => "group-missing"
    case GroupCreated => "group-created"
    case PolicyMissing => "policy-missing"
    case SigningKeyMissing => "signing-key-missing"
    case ScopeMissing => "scope-missing"
    case GroupsScopeMissing => "groups-scope-missing"
    case SecretMissing => "oidc-secret-missing"
    case SecretWeak => "oidc-secret-weak"
    case OutpostMissing => "outpost-missing"
    case Adopted => "adopted"
    case AdoptConflict => "adopt-conflict"
    case AdoptTypeChange => "adopt-type-change"
    case BindingRemoved => "binding-removed"
    case SamlMappingMissing => "saml-mapping-missing"
    case DuplicateHost => "duplicate-host"
    case GoLiveUnverified => "go-live-unverified"
    case GoLiveStale => "go-live-stale"
    case ApiError => "api-error"
    case ProviderUnknown => "provider-unknown"
  }

  function FindingName(f: Audit.Finding): string {
    match f
    case UnwiredMiddleware(_) => "unwired-middleware"
    case RouterUnknown(_) => "router-unknown"
    case MissingCallback => "missing-callback"
    case CallbackPriority => "callback-priority"
  }

  function FromComplaints(issues: seq<Complaint>): seq<Sticky.Finding> {
    seq(|issues|, i requires 0 <= i < |issues| => Sticky.Finding(if issues[i].Unarmed? then Warning else Error, ComplaintName(issues[i]), ""))
  }

  function FromIssues(issues: seq<Issue>): seq<Sticky.Finding> {
    seq(|issues|, i requires 0 <= i < |issues| => Sticky.Finding(issues[i].severity, CodeName(issues[i].code), ""))
  }

  function FromAudit(findings: seq<Audit.Finding>): seq<Sticky.Finding> {
    seq(|findings|, i requires 0 <= i < |findings| => Sticky.Finding(Error, FindingName(findings[i]), ""))
  }

  lemma {:induction false} IssueCodes(issues: seq<Issue>)
    ensures Sticky.Codes(FromIssues(issues)) == Names(Errors(issues))
  {
    hide CodeName;
    if issues != [] {
      var before, last := issues[..|issues| - 1], issues[|issues| - 1];
      IssueCodes(before);
      var one := [Sticky.Finding(last.severity, CodeName(last.code), "")];
      assert FromIssues(issues) == FromIssues(before) + one;
      CodesJoin(FromIssues(before), one);
      assert Sticky.Codes(one) == Names(if last.severity.Error? then [last.code] else []) by { OneFinding(last); }
      NamesJoin(Errors(before), if last.severity.Error? then [last.code] else []);
    }
  }

  function Names(codes: seq<Code>): set<string> {
    set c | c in codes :: CodeName(c)
  }

  lemma NamesJoin(a: seq<Code>, b: seq<Code>)
    ensures Names(a + b) == Names(a) + Names(b)
  {
    hide CodeName;
  }

  lemma OneFinding(issue: Issue)
    ensures Sticky.Codes([Sticky.Finding(issue.severity, CodeName(issue.code), "")]) ==
              Names(if issue.severity.Error? then [issue.code] else [])
  {
    hide CodeName;
    var one := [Sticky.Finding(issue.severity, CodeName(issue.code), "")];
    assert one[0] in one;
    assert issue.severity.Error? ==> issue.code in [issue.code];
  }

  lemma ComplaintCodes(issues: seq<Complaint>)
    ensures Sticky.Codes(FromComplaints(issues)) == set x | x in issues && x != Unarmed :: ComplaintName(x)
  {
    hide ComplaintName;
    var findings := FromComplaints(issues);
    forall x | x in issues && x != Unarmed ensures ComplaintName(x) in Sticky.Codes(findings) {
      var i :| 0 <= i < |issues| && issues[i] == x;
      assert findings[i] in findings;
    }
    forall f | f in findings && f.severity.Error? ensures exists x :: x in issues && x != Unarmed && ComplaintName(x) == f.code {
      var i :| 0 <= i < |findings| && findings[i] == f;
      assert issues[i] in issues;
    }
  }

  lemma NoErrorNoCode(issues: seq<Complaint>)
    ensures !HasError(issues) ==> Sticky.Codes(FromComplaints(issues)) == {}
  {
    ComplaintCodes(issues);
    hide FromComplaints, Sticky.Codes;
  }

  lemma AuditCodes(findings: seq<Audit.Finding>)
    ensures Sticky.Codes(FromAudit(findings)) == AuditNames(findings)
  {
    hide FindingName;
    var all := FromAudit(findings);
    forall f | f in findings ensures FindingName(f) in Sticky.Codes(all) {
      var i :| 0 <= i < |findings| && findings[i] == f;
      assert all[i] in all;
    }
    forall g | g in all ensures exists f :: f in findings && FindingName(f) == g.code {
      var i :| 0 <= i < |all| && all[i] == g;
      assert findings[i] in findings;
    }
  }

  lemma CodesJoin(a: seq<Sticky.Finding>, b: seq<Sticky.Finding>)
    ensures Sticky.Codes(a + b) == Sticky.Codes(a) + Sticky.Codes(b)
  {
  }

  // What every run keeps.

  /** Since request `n`, when the tables were `t0`: no list has lost an entry at any time, and if external
      hosts were unique then, they have been all along. */
  ghost predicate Preserved(t0: Tables, trace: seq<Entry>, n: nat, t: Tables) {
    && OnlyGrows(trace, n, t) && ListsGrow(t0, t) && (forall i | n <= i < |trace| :: ListsGrow(t0, trace[i].after))
    && (HostsUnique(t0) ==> HostsUniqueSince(trace, n) && HostsUnique(t))
  }

  lemma NothingMoved(trace: seq<Entry>, t: Tables)
    ensures Preserved(t, trace, |trace|, t)
  {
  }

  lemma LawfulPreserves(cfg: Config, lib: Library, s: Spec, t0: Tables, trace: seq<Entry>, n: nat, t: Tables)
    requires LawfulSince(cfg, lib, s, t0, trace, n) && Lawful(cfg, lib, s, t0, Entry(Read, t)) && OnlyGrows(trace, n, t)
    ensures Preserved(t0, trace, n, t)
  {
    LawfulGrows(cfg, lib, s, t0, trace, n, t);
    hide Lawful, OnlyGrows, ListsGrow;
    if HostsUnique(t0) {
      LawfulHosts(cfg, lib, s, t0, trace, n, t);
    }
  }

  lemma StillPreserved(start: Tables, trace: seq<Entry>, n: nat, before: seq<Entry>, t0: Tables, t: Tables)
    requires before <= trace && Preserved(start, before, n, t0) && Preserved(t0, trace, |before|, t)
    ensures Preserved(start, trace, n, t)
  {
    hide ListsGrow, HostsUnique;
    GrowthJoins(trace, n, before, t0, t);
    if HostsUnique(start) {
      HostsJoin(trace, n, before);
    }
    hide OnlyGrows;
    ListsGrowTransitive(start, t0, t);
    forall i | n <= i < |trace| ensures ListsGrow(start, trace[i].after) {
      if i < |before| {
        assert trace[i] == before[i];
      } else {
        ListsGrowTransitive(start, t0, trace[i].after);
      }
    }
  }

  /** Reading on changes nothing of this. */
  lemma ReadsPreserve(start: Tables, trace: seq<Entry>, n: nat, before: seq<Entry>, t: Tables)
    requires before <= trace && Preserved(start, before, n, t) && Reads(trace, |before|, t)
    ensures Preserved(start, trace, n, t)
  {
    assert Preserved(t, trace, |before|, t);
    hide Preserved;
    StillPreserved(start, trace, n, before, t, t);
  }

  // One container.

  ghost predicate IsEnabled(c: Container) {
    Get(Merged(c.labels), "enable") == "true"
  }

  /** The errors a container that may not be acted on is reported with. */
  ghost predicate ReportsComplaints(settings: Settings, c: Container, f: Spec, findings: seq<Sticky.Finding>) {
    forall name :: name in Sticky.Codes(findings) <==> exists x :: Complains(RulesOf(settings), c, f, x) && x != Unarmed && ComplaintName(x) == name
  }

  function AuditNames(findings: seq<Audit.Finding>): set<string> {
    set f | f in findings :: FindingName(f)
  }

  /** The errors a container that was acted on is reported with: what the reconcile returned, and what
      the audit found where there is a proxy to audit. */
  ghost predicate ReportsRun(settings: Settings, c: Container, f: Spec, fleet: bool, err: Option<Code>, audit: Option<Audit.Report>,
                             findings: seq<Sticky.Finding>) {
    && (audit.Some? <==> settings.traefik && f.provider.ForwardAuth?)
    && (audit.Some? ==> Audit.IsReport(SetupOf(settings), f, RoutersOf(c.labels), fleet, audit.value))
    && Sticky.Codes(findings) == Names(ErrorOf(err)) + if audit.Some? then AuditNames(audit.value.findings) else {}
  }

  function ErrorOf(err: Option<Code>): seq<Code> {
    match err
    case None => []
    case Some(code) => [code]
  }

  /** Labels, reconcile, audit. A container whose labels have an error is reported and never acted on. */
  method ProcessContainer(api: Server, settings: Settings, c: Container, fleet: bool)
    returns (outcome: Outcome, ghost f: Spec, ghost err: Option<Code>, ghost audit: Option<Audit.Report>)
    requires api.Valid()
    modifies api`tables, api`calls, api`trace, api`clock
    ensures api.Valid() && old(api.trace) <= api.trace && old(api.calls) <= api.calls && old(api.clock) <= api.clock
    ensures outcome.Excluded? <==> settings.excluded(c)
    ensures !settings.excluded(c) ==> (outcome.Enabled? <==> IsEnabled(c)) && (outcome.Disabled? <==> !IsEnabled(c))
    ensures outcome.Enabled? ==> f.enable && Means(c, Merged(c.labels), f) && outcome.slug == f.slug && outcome.service == f.name
    // Skip and alert.
    ensures !(outcome.Enabled? && Accepted(RulesOf(settings), c.labels, Merged(c.labels), f)) ==> api.tables == old(api.tables) && api.trace == old(api.trace)
    ensures outcome.Enabled? && !Accepted(RulesOf(settings), c.labels, Merged(c.labels), f) ==> ReportsComplaints(settings, c, f, outcome.findings)
    // Act.
    ensures outcome.Enabled? && Accepted(RulesOf(settings), c.labels, Merged(c.labels), f) ==>
              && LawfulSince(settings.cfg, api.lib, f, old(api.tables), api.trace, |old(api.trace)|)
              && Lawful(settings.cfg, api.lib, f, old(api.tables), Entry(Read, api.tables))
              && (err.None? ==> Converged(settings.cfg, api.lib, f, api.tables))
              && ReportsRun(settings, c, f, fleet, err, audit, outcome.findings)
              && (Calm(api.env, old(api.calls)) && Admissible(settings.cfg, api.lib, f, old(api.tables)) && Served(settings.cfg, f, api.env, old(api.clock))
                  ==> err.None?)
    ensures Preserved(old(api.tables), api.trace, |old(api.trace)|, api.tables)
  {
    hide Preserved, OnlyGrows;
    hide WellFormed, Errors, Lawful, LawfulSince, Converged, NoClaim, Admissible, Served, Calm, OwnedAsWanted;
    hide Rows.AsAsked, PutAsAsked, GoLive.LiveInTime, GoLive.NeverServed, GoLive.Awake, Refusal, AsWritten, ForeignAsWritten, Audit.JudgedByRule, Audit.CallbackJudged;
    hide Accepted, Complains, Sound, Means, Merged, HasError, Sticky.Codes, Audit.IsReport, RoutersOf, ServiceName, Get;
    NothingMoved(api.trace, api.tables);
    f, err, audit := NOTHING, None, None;
    if settings.excluded(c) {
      return Excluded, f, err, audit;
    }
    var spec, issues := Discover(RulesOf(settings), c);
    f := spec;
    if !spec.enable {
      return Disabled, f, err, audit;
    }
    var findings := FromComplaints(issues);
    ComplaintCodes(issues);
    if HasError(issues) {
      return Enabled(spec.slug, spec.name, findings), f, err, audit;
    }
    ghost var t0, n := api.tables, |api.trace|;
    var res, failed := Reconcile(api, settings.cfg, spec);
    err := failed;
    LawfulPreserves(settings.cfg, api.lib, spec, t0, api.trace, n, api.tables);
    IssueCodes(res.issues);
    CodesJoin(FromComplaints(issues), FromIssues(res.issues));
    NoErrorNoCode(issues);
    findings := findings + FromIssues(res.issues);
    if settings.traefik && spec.provider.ForwardAuth? {
      var a := Audit.Verify(SetupOf(settings), spec, c.labels, fleet);
      audit := Some(a);
      AuditCodes(a.findings);
      CodesJoin(findings, FromAudit(a.findings));
      findings := findings + FromAudit(a.findings);
    }
    outcome := Enabled(spec.slug, spec.name, findings);
  }

  // The listing.

  ghost function SlugOf(c: Container): string {
    var norm := Merged(c.labels);
    if "slug" in norm then norm["slug"] else Derived(ServiceName(c, norm))
  }

  ghost predicate Wanted(settings: Settings, c: Container, slug: string) {
    !settings.excluded(c) && IsEnabled(c) && slug == SlugOf(c)
  }

  /** The slugs that some container still asks for. */
  ghost predicate WantedBySome(settings: Settings, listing: seq<Container>, slug: string) {
    exists c :: c in listing && Wanted(settings, c, slug)
  }

  method EnabledSlugs(settings: Settings, listing: seq<Container>) returns (slugs: seq<string>)
    ensures forall s :: s in slugs <==> WantedBySome(settings, listing, s)
  {
    hide Wanted;
    slugs := [];
    for i := 0 to |listing|
      invariant forall s :: s in slugs <==> WantedBySome(settings, listing[..i], s)
    {
      assert listing[..i + 1] == listing[..i] + [listing[i]];
      OneMoreListed(settings, listing[..i], listing[i]);
      var wanted, slug := SlugIfWanted(settings, listing[i]);
      if wanted {
        slugs := slugs + [slug];
      }
    }
    assert listing[..|listing|] == listing;
  }

  method SlugIfWanted(settings: Settings, c: Container) returns (wanted: bool, slug: string)
    ensures forall s :: Wanted(settings, c, s) <==> wanted && s == slug
  {
    hide Accepted, Complains, Sound, HasError, Merged, ServiceName, Derived, Get;
    if settings.excluded(c) {
      return false, "";
    }
    var f, _ := Discover(RulesOf(settings), c);
    return f.enable, f.slug;
  }

  lemma OneMoreListed(settings: Settings, listing: seq<Container>, c: Container)
    ensures forall s :: WantedBySome(settings, listing + [c], s) <==> WantedBySome(settings, listing, s) || Wanted(settings, c, s)
  {
    hide Wanted;
    forall s | WantedBySome(settings, listing, s) || Wanted(settings, c, s) ensures WantedBySome(settings, listing + [c], s) {
      assert c in listing + [c];
      if WantedBySome(settings, listing, s) {
        var d :| d in listing && Wanted(settings, d, s);
        assert d in listing + [c];
      }
    }
  }

  lemma MeansSlug(c: Container, f: Spec)
    requires Means(c, Merged(c.labels), f)
    ensures f.slug == SlugOf(c)
  {
    hide Merged, Derived, ServiceName;
  }

  lemma NobodyWants(settings: Settings)
    ensures forall s :: !WantedBySome(settings, [], s)
  {
  }

  lemma WantedMeans(settings: Settings, c: Container, outcome: Outcome, f: Spec)
    requires outcome.Excluded? <==> settings.excluded(c)
    requires !settings.excluded(c) ==> (outcome.Enabled? <==> IsEnabled(c))
    requires outcome.Enabled? ==> Means(c, Merged(c.labels), f) && outcome.slug == f.slug
    ensures forall s :: Wanted(settings, c, s) <==> outcome.Enabled? && s == outcome.slug
  {
    hide IsEnabled, Means, SlugOf;
    if outcome.Enabled? {
      MeansSlug(c, f);
    }
  }
}
