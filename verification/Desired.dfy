/** The desired state aboard derives from labels and configuration, the outcome record of a
    reconcile, and what it means for Authentik to have converged to a Spec. */
module Desired {
  import opened Options
  import opened Authentik
  import opened Text

  /** What the labels of one container ask for. */
  datatype Spec = Spec(
    enable: bool, name: string, slug: string, title: string, provider: ProviderType, host: string, flow: string, adopt: bool,
    groupsSet: bool, groups: seq<string>, groupsClaim: bool, policies: seq<string>, requireAll: bool, outpost: string,
    launchSet: bool, launchNone: bool, launch: string, descriptionSet: bool, description: string, iconSet: bool, icon: string,
    publicPaths: seq<string>, routers: seq<string>,
    redirect: seq<string>, secretName: string, clientId: string, publicClient: bool, scopes: seq<string>,
    acs: string, audience: string, issuer: string, postBinding: bool, samlMappings: seq<string>)

  /** What there is to say about a container that asks for nothing. */
  const NOTHING := Spec(false, "", "", "", ForwardAuth, "", "", false, false, [], true, [], false, "", false, false, "", false, "", false, "",
                        [], [], [], "", "", false, [], "", "", "", true, [])

  /** The loaded configuration, with the secret resolver as a function. */
  datatype Config = Config(
    authorizationFlow: string, invalidationFlow: string, outpost: string, defaultGroups: seq<string>,
    createGroups: bool, groupsScope: string, oidcKey: string, samlKey: string, goLiveTimeout: int,
    secrets: string -> Option<string>)

  const EMBEDDED := "embedded"
  const OWNER_SUFFIX := " (aboard)"
  const MIN_SECRET := 32
  const ALWAYS_SCOPES := ["openid", "email", "profile"]

  datatype Severity = Info | Warning | Error

  datatype Code =
    | FlowMissing | GroupMissing | GroupCreated | PolicyMissing | SigningKeyMissing | ScopeMissing
    | GroupsScopeMissing | SecretMissing | SecretWeak | OutpostMissing | Adopted | AdoptConflict
    | AdoptTypeChange | BindingRemoved | SamlMappingMissing | DuplicateHost | GoLiveUnverified
    | GoLiveStale | ApiError | ProviderUnknown

  datatype Issue = Issue(severity: Severity, code: Code)

  /** The codes of the error issues, in order. */
  ghost function Errors(issues: seq<Issue>): seq<Code> {
    if issues == [] then []
    else
      var last := issues[|issues| - 1];
      Errors(issues[..|issues| - 1]) + if last.severity.Error? then [last.code] else []
  }

  /** What one reconcile reports. */
  class Result {
    var providerPk: Option<nat>
    var appPk: Option<nat>
    var adopted: bool
    var attached: bool
    var issues: seq<Issue>

    constructor ()
      ensures !adopted && !attached && issues == [] && providerPk == None && appPk == None
    {
      providerPk, appPk, adopted, attached, issues := None, None, false, false, [];
    }

    /** Records the terminal error and hands it back. */
    method Fail(code: Code) returns (err: Option<Code>)
      modifies this`issues
      ensures err == Some(code) && Errors(issues) == Errors(old(issues)) + [code]
    {
      issues := issues + [Issue(Error, code)];
      assert issues[..|issues| - 1] == old(issues);
      err := Some(code);
    }

    method Note(severity: Severity, code: Code)
      requires !severity.Error?
      modifies this`issues
      ensures Errors(issues) == Errors(old(issues))
    {
      issues := issues + [Issue(severity, code)];
      assert issues[..|issues| - 1] == old(issues);
    }
  }

  /** An error is reported exactly when it is returned, as the one new error issue. */
  ghost predicate Reported(before: seq<Issue>, after: seq<Issue>, err: Option<Code>) {
    Errors(after) == match err {
      case None => Errors(before)
      case Some(code) => Errors(before) + [code]
    }
  }

  // Names and kinds.

  function Marker(slug: string): string {
    slug + OWNER_SUFFIX
  }

  predicate IsAboardName(name: string) {
    |name| >= |OWNER_SUFFIX| && name[|name| - |OWNER_SUFFIX|..] == OWNER_SUFFIX
  }

  /** The marker is an aboard name and determines the slug. */
  lemma MarkerIsInjective(a: string, b: string)
    ensures IsAboardName(Marker(a)) && (Marker(a) == Marker(b) ==> a == b)
  {
    assert Marker(a)[..|Marker(a)| - |OWNER_SUFFIX|] == a && Marker(b)[..|Marker(b)| - |OWNER_SUFFIX|] == b;
  }

  /** Aboard's names are those with the suffix. */
  lemma AboardNames(name: string)
    ensures IsAboardName(name) <==> exists slug: string :: name == slug + " (aboard)"
  {
    if IsAboardName(name) {
      assert name == name[..|name| - |OWNER_SUFFIX|] + " (aboard)";
    }
  }

  function KindOf(c: Component): ProviderType {
    match c
    case ProxyForm => ForwardAuth
    case OAuth2Form => Oidc
    case SamlForm => Saml
    case OtherForm => Unrecognised
  }

  function ComponentOf(k: ProviderType): Component {
    match k
    case ForwardAuth => ProxyForm
    case Oidc => OAuth2Form
    case Saml => SamlForm
    case Unrecognised => OtherForm
  }

  function EndpointOf(k: ProviderType): Endpoint {
    match k
    case ForwardAuth => Proxies
    case Oidc => OAuth2s
    case Saml => Samls
    case Unrecognised => All
  }

  // Access bindings.

  datatype Key = GroupKey(pk: string) | PolicyKey(pk: string)

  function KeyOf(b: Binding): Option<Key> {
    if b.group.Some? && b.group.value != "" then Some(GroupKey(b.group.value))
    else if b.policy.Some? && b.policy.value != "" then Some(PolicyKey(b.policy.value))
    else None
  }

  function EffectiveGroups(cfg: Config, s: Spec): seq<string> {
    if s.groupsSet then s.groups else cfg.defaultGroups
  }

  ghost predicate Known(names: seq<string>, table: map<string, string>) {
    forall n | n in names :: n in table
  }

  ghost predicate Resolvable(cfg: Config, lib: Library, s: Spec, groups: map<string, string>) {
    Known(EffectiveGroups(cfg, s), groups) && Known(s.policies, lib.policies)
  }

  ghost function GroupKeys(names: seq<string>, table: map<string, string>): seq<Key>
    requires Known(names, table)
  {
    seq(|names|, i requires 0 <= i < |names| => GroupKey(table[names[i]]))
  }

  ghost function PolicyKeys(names: seq<string>, table: map<string, string>): seq<Key>
    requires Known(names, table)
  {
    seq(|names|, i requires 0 <= i < |names| => PolicyKey(table[names[i]]))
  }

  /** The access bindings the labels ask for, in label order, groups before policies. */
  ghost function WantedKeys(cfg: Config, lib: Library, s: Spec, groups: map<string, string>): seq<Key>
    requires Resolvable(cfg, lib, s, groups)
  {
    GroupKeys(EffectiveGroups(cfg, s), groups) + PolicyKeys(s.policies, lib.policies)
  }

  predicate Stray(b: Binding, wanted: seq<Key>) {
    KeyOf(b).None? || KeyOf(b).value !in wanted
  }

  ghost predicate Bound(bindings: map<nat, Binding>, app: nat, key: Key) {
    exists b :: b in bindings && bindings[b].target == app && KeyOf(bindings[b]) == Some(key)
  }

  ghost predicate NoStray(bindings: map<nat, Binding>, app: nat, wanted: seq<Key>) {
    forall b | b in bindings && bindings[b].target == app :: !Stray(bindings[b], wanted)
  }

  /** The application's bindings are the wanted ones and nothing else. */
  ghost predicate ExactlyBound(bindings: map<nat, Binding>, app: nat, wanted: seq<Key>) {
    NoStray(bindings, app, wanted) && forall k | k in wanted :: Bound(bindings, app, k)
  }

  // Request bodies.

  function NonEmpty(m: map<string, string>): map<string, string> {
    map k | k in m && m[k] != "" :: m[k]
  }

  function Dedupe(xs: seq<string>): seq<string> {
    if xs == [] then []
    else
      var rest := Dedupe(xs[..|xs| - 1]);
      if xs[|xs| - 1] in rest then rest else rest + [xs[|xs| - 1]]
  }

  function ProxyBody(s: Spec, authz: string, inval: string): ProviderBody {
    ProviderBody(Marker(s.slug), "https://" + s.host,
      NonEmpty(map["authorization_flow" := authz, "invalidation_flow" := inval,
                   "mode" := "forward_single", "skip_path_regex" := Joined(s.publicPaths, '\n')]), [])
  }

  function OidcBody(s: Spec, authz: string, inval: string, secret: string, key: string, scopes: seq<string>): ProviderBody {
    ProviderBody(Marker(s.slug), "",
      NonEmpty(map["authorization_flow" := authz, "invalidation_flow" := inval,
                   "client_type" := if s.publicClient then "public" else "confidential",
                   "client_id" := if s.clientId == "" then s.slug else s.clientId, "redirect_uris" := Joined(s.redirect, '\n'),
                   "client_secret" := secret, "signing_key" := key]), scopes)
  }

  function SamlBody(s: Spec, authz: string, inval: string, key: string, mappings: seq<string>): ProviderBody {
    ProviderBody(Marker(s.slug), "",
      NonEmpty(map["authorization_flow" := authz, "invalidation_flow" := inval, "acs_url" := s.acs, "audience" := s.audience,
                   "issuer" := s.issuer, "sp_binding" := if s.postBinding then "post" else "redirect", "signing_kp" := key,
                   "sign_assertion" := "true", "sign_response" := "false"]), mappings)
  }

  function FlowSlug(cfg: Config, s: Spec): string {
    if s.flow == "" then cfg.authorizationFlow else s.flow
  }

  function GroupsScope(cfg: Config): string {
    if cfg.groupsScope != "" then cfg.groupsScope else "groups"
  }

  function ScopeNames(cfg: Config, s: Spec): seq<string> {
    Dedupe(ALWAYS_SCOPES + s.scopes + if s.groupsClaim then [GroupsScope(cfg)] else [])
  }

  function SigningKey(lib: Library, name: string): Option<string> {
    if name in lib.certificates then Some(lib.certificates[name]) else lib.firstKey
  }

  function Secret(cfg: Config, s: Spec): Option<string> {
    if s.publicClient then Some("") else cfg.secrets(s.secretName)
  }

  ghost function Pks(names: seq<string>, table: map<string, string>): seq<string>
    requires Known(names, table)
  {
    seq(|names|, i requires 0 <= i < |names| => table[names[i]])
  }

  /** The provider body a reconcile of `s` sends, when everything it names exists. */
  ghost function DesiredBody(cfg: Config, lib: Library, s: Spec): Option<ProviderBody> {
    if FlowSlug(cfg, s) !in lib.flows || cfg.invalidationFlow !in lib.flows then None
    else
      var authz, inval := lib.flows[FlowSlug(cfg, s)], lib.flows[cfg.invalidationFlow];
      match s.provider
      case ForwardAuth => Some(ProxyBody(s, authz, inval))
      case Oidc =>
        if Secret(cfg, s).None? || (!s.publicClient && |Secret(cfg, s).value| < MIN_SECRET)
           || SigningKey(lib, cfg.oidcKey).None? || !Known(ScopeNames(cfg, s), lib.scopes) then None
        else Some(OidcBody(s, authz, inval, Secret(cfg, s).value, SigningKey(lib, cfg.oidcKey).value,
                           Pks(ScopeNames(cfg, s), lib.scopes)))
      case Saml =>
        if SigningKey(lib, cfg.samlKey).None? || !Known(s.samlMappings, lib.samlMappings) then None
        else Some(SamlBody(s, authz, inval, SigningKey(lib, cfg.samlKey).value,
                           Dedupe(lib.managedSaml + Pks(s.samlMappings, lib.samlMappings))))
      case Unrecognised => None
  }

  /** The first name the table does not have. */
  function FirstMissing(names: seq<string>, table: map<string, string>): (missing: Option<string>)
    ensures missing.None? <==> forall n | n in names :: n in table
    ensures missing.Some? ==> missing.value in names && missing.value !in table
  {
    if names == [] then None else if names[0] !in table then Some(names[0]) else FirstMissing(names[1..], table)
  }

  function ScopeRefusal(cfg: Config, s: Spec, scope: string): Code {
    if s.groupsClaim && scope == GroupsScope(cfg) then GroupsScopeMissing else ScopeMissing
  }

  /** Why no provider body can be built, in the order things are looked up. */
  function BodyRefusal(cfg: Config, lib: Library, s: Spec): Option<Code> {
    match s.provider
    case ForwardAuth => None
    case Oidc =>
      if Secret(cfg, s).None? then Some(SecretMissing)
      else if !s.publicClient && |Secret(cfg, s).value| < MIN_SECRET then Some(SecretWeak)
      else if SigningKey(lib, cfg.oidcKey).None? then Some(SigningKeyMissing)
      else
        var missing := FirstMissing(ScopeNames(cfg, s), lib.scopes);
        if missing.Some? then Some(ScopeRefusal(cfg, s, missing.value)) else None
    case Saml =>
      if SigningKey(lib, cfg.samlKey).None? then Some(SigningKeyMissing)
      else if FirstMissing(s.samlMappings, lib.samlMappings).Some? then Some(SamlMappingMissing)
      else None
    case Unrecognised => Some(ProviderUnknown)
  }

  /** A body is refused exactly when there is none to send. */
  lemma RefusedWithoutBody(cfg: Config, lib: Library, s: Spec)
    requires FlowSlug(cfg, s) in lib.flows && cfg.invalidationFlow in lib.flows
    ensures BodyRefusal(cfg, lib, s).None? <==> DesiredBody(cfg, lib, s).Some?
  {
    hide ScopeNames, OidcBody, SamlBody, ProxyBody, SigningKey;
  }

  function Mode(s: Spec): string {
    if s.requireAll then "all" else "any"
  }

  function DesiredApp(s: Spec, provider: nat): AppBody {
    AppBody(s.title, provider, Mode(s),
      NonEmpty((if s.launchSet then map["meta_launch_url" := if s.launchNone then "blank://blank" else s.launch] else map[])
             + (if s.descriptionSet then map["meta_description" := s.description] else map[])))
  }

  function OutpostName(cfg: Config, s: Spec): string {
    if s.outpost == "" then cfg.outpost else s.outpost
  }

  /** The first outpost the name denotes, "embedded" standing for the managed one. */
  predicate Denotes(o: Outpost, name: string) {
    if name == EMBEDDED then o.embedded else o.name == name
  }

  function FindOutpost(outposts: seq<Outpost>, name: string): (found: Option<nat>)
    ensures found.Some? ==> found.value < |outposts| && Denotes(outposts[found.value], name)
  {
    if outposts == [] then None
    else if FindOutpost(outposts[..|outposts| - 1], name).Some? then FindOutpost(outposts[..|outposts| - 1], name)
    else if Denotes(outposts[|outposts| - 1], name) then Some(|outposts| - 1)
    else None
  }

  function With(list: seq<nat>, pk: nat): seq<nat> {
    if pk in list then list else list + [pk]
  }

  // What the labels mean in Authentik.

  /** The provider an application at `slug` points at, when it is aboard's: named by the marker
      and of a type aboard knows. */
  datatype Ownership = Unowned | Owned(kind: ProviderType, pk: nat)

  function OwnerOf(t: Tables, slug: string, app: Application): Ownership {
    if app.provider.Some? && app.provider.value in t.providers
       && t.providers[app.provider.value].name == Marker(slug) && !t.providers[app.provider.value].component.OtherForm?
    then Owned(KindOf(t.providers[app.provider.value].component), app.provider.value)
    else Unowned
  }

  /** The app at the slug is aboard's, of the wanted type, and gated by exactly the wanted
      bindings: all that must hold before the provider may go live. */
  ghost predicate Ready(cfg: Config, lib: Library, s: Spec, t: Tables) {
    && s.slug in t.apps
    && OwnerOf(t, s.slug, t.apps[s.slug]).Owned? && OwnerOf(t, s.slug, t.apps[s.slug]).kind == s.provider
    && Resolvable(cfg, lib, s, t.groups)
    && ExactlyBound(t.bindings, t.apps[s.slug].pk, WantedKeys(cfg, lib, s, t.groups))
  }

  /** Ready, and carrying every declared field. */
  ghost predicate Realised(cfg: Config, lib: Library, s: Spec, t: Tables) {
    && Ready(cfg, lib, s, t)
    && var app := t.apps[s.slug];
       var pk := app.provider.value;
       && DesiredBody(cfg, lib, s).Some? && Overlay(t.providers[pk], DesiredBody(cfg, lib, s).value) == t.providers[pk]
       && OverlayApp(app, DesiredApp(s, pk)) == app
       && (s.iconSet ==> "meta_icon" in app.meta && app.meta["meta_icon"] == s.icon)
  }

  /** Realised, and listed by the outpost when there is one. */
  ghost predicate Converged(cfg: Config, lib: Library, s: Spec, t: Tables) {
    && Realised(cfg, lib, s, t)
    && (s.provider.ForwardAuth? ==>
          var o := FindOutpost(t.outposts, OutpostName(cfg, s));
          o.Some? && t.apps[s.slug].provider.value in t.outposts[o.value].providers)
  }

  ghost predicate Claims(p: Provider) {
    p.component.ProxyForm? && IsAboardName(p.name)
  }

  /** No two aboard-named proxy providers claim one external host. */
  ghost predicate HostsUnique(t: Tables) {
    forall p, q | p in t.providers && q in t.providers && p != q && Claims(t.providers[p]) && Claims(t.providers[q]) ::
      t.providers[p].externalHost != t.providers[q].externalHost
  }
}
