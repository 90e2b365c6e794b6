/** What a reconciled app looks like in Authentik's rows, said in the words of the labels alone. */
module Rows {
  import opened Options
  import opened Authentik
  import opened Text
  import opened Desired

  // Who is let in.

  ghost predicate BoundToGroup(b: Binding, pk: string) {
    b.group == Some(pk)
  }

  ghost predicate BoundToPolicy(b: Binding, pk: string) {
    (b.group.None? || b.group.value == "") && b.policy == Some(pk)
  }

  /** The application's bindings name exactly these groups and these policies. */
  ghost predicate LetsIn(t: Tables, lib: Library, app: nat, groups: seq<string>, policies: seq<string>) {
    && (forall g | g in groups :: g in t.groups && exists b :: b in t.bindings && t.bindings[b].target == app && BoundToGroup(t.bindings[b], t.groups[g]))
    && (forall p | p in policies ::
          p in lib.policies && exists b :: b in t.bindings && t.bindings[b].target == app && BoundToPolicy(t.bindings[b], lib.policies[p]))
    && forall b | b in t.bindings && t.bindings[b].target == app ::
         || (exists g :: g in groups && g in t.groups && BoundToGroup(t.bindings[b], t.groups[g]))
         || exists p :: p in policies && p in lib.policies && BoundToPolicy(t.bindings[b], lib.policies[p])
  }

  /** The groups of the labels where the labels set any, otherwise the default ones; the policies of the labels. */
  ghost predicate GatedAsAsked(cfg: Config, lib: Library, s: Spec, t: Tables) {
    && s.slug in t.apps
    && (s.groupsSet ==> LetsIn(t, lib, t.apps[s.slug].pk, s.groups, s.policies))
    && (!s.groupsSet ==> LetsIn(t, lib, t.apps[s.slug].pk, cfg.defaultGroups, s.policies))
  }

  lemma BoundMeans(bindings: map<nat, Binding>, app: nat, pk: string)
    ensures Bound(bindings, app, GroupKey(pk)) ==> exists b :: b in bindings && bindings[b].target == app && BoundToGroup(bindings[b], pk)
    ensures Bound(bindings, app, PolicyKey(pk)) ==> exists b :: b in bindings && bindings[b].target == app && BoundToPolicy(bindings[b], pk)
  {
    if b :| b in bindings && bindings[b].target == app && KeyOf(bindings[b]) == Some(GroupKey(pk)) {
      assert BoundToGroup(bindings[b], pk);
    }
    if b :| b in bindings && bindings[b].target == app && KeyOf(bindings[b]) == Some(PolicyKey(pk)) {
      assert BoundToPolicy(bindings[b], pk);
    }
  }

  lemma KeyMeans(b: Binding)
    ensures KeyOf(b).Some? ==>
              match KeyOf(b).value
              case GroupKey(pk) => BoundToGroup(b, pk)
              case PolicyKey(pk) => BoundToPolicy(b, pk)
  {
  }

  lemma ExactlyBoundLetsIn(t: Tables, lib: Library, app: nat, groups: seq<string>, policies: seq<string>)
    requires Known(groups, t.groups) && Known(policies, lib.policies)
    requires ExactlyBound(t.bindings, app, GroupKeys(groups, t.groups) + PolicyKeys(policies, lib.policies))
    ensures LetsIn(t, lib, app, groups, policies)
  {
    var wanted := GroupKeys(groups, t.groups) + PolicyKeys(policies, lib.policies);
    hide KeyOf, BoundToGroup, BoundToPolicy, Bound;
    forall g | g in groups ensures exists b :: b in t.bindings && t.bindings[b].target == app && BoundToGroup(t.bindings[b], t.groups[g]) {
      var i :| 0 <= i < |groups| && groups[i] == g;
      assert wanted[i] == GroupKey(t.groups[g]);
      BoundMeans(t.bindings, app, t.groups[g]);
    }
    forall p | p in policies ensures exists b :: b in t.bindings && t.bindings[b].target == app && BoundToPolicy(t.bindings[b], lib.policies[p]) {
      var i :| 0 <= i < |policies| && policies[i] == p;
      assert wanted[|groups| + i] == PolicyKey(lib.policies[p]);
      BoundMeans(t.bindings, app, lib.policies[p]);
    }
    forall b | b in t.bindings && t.bindings[b].target == app
      ensures (exists g :: g in groups && g in t.groups && BoundToGroup(t.bindings[b], t.groups[g]))
              || exists p :: p in policies && p in lib.policies && BoundToPolicy(t.bindings[b], lib.policies[p])
    {
      WantedMeans(t, lib, groups, policies, t.bindings[b]);
    }
  }

  lemma WantedMeans(t: Tables, lib: Library, groups: seq<string>, policies: seq<string>, b: Binding)
    requires Known(groups, t.groups) && Known(policies, lib.policies)
    requires !Stray(b, GroupKeys(groups, t.groups) + PolicyKeys(policies, lib.policies))
    ensures (exists g :: g in groups && g in t.groups && BoundToGroup(b, t.groups[g]))
            || exists p :: p in policies && p in lib.policies && BoundToPolicy(b, lib.policies[p])
  {
    var wanted := GroupKeys(groups, t.groups) + PolicyKeys(policies, lib.policies);
    KeyMeans(b);
    hide KeyOf, BoundToGroup, BoundToPolicy;
    var i :| 0 <= i < |wanted| && wanted[i] == KeyOf(b).value;
    if i < |groups| {
      assert groups[i] in groups && BoundToGroup(b, t.groups[groups[i]]);
    } else {
      assert policies[i - |groups|] in policies && BoundToPolicy(b, lib.policies[policies[i - |groups|]]);
    }
  }

  /** In every state in which an app may be put on an outpost, the right people are let in. */
  lemma ReadyIsGated(cfg: Config, lib: Library, s: Spec, t: Tables)
    requires Ready(cfg, lib, s, t)
    ensures GatedAsAsked(cfg, lib, s, t)
  {
    hide LetsIn, ExactlyBound, OwnerOf;
    if s.groupsSet {
      ExactlyBoundLetsIn(t, lib, t.apps[s.slug].pk, s.groups, s.policies);
    } else {
      ExactlyBoundLetsIn(t, lib, t.apps[s.slug].pk, cfg.defaultGroups, s.policies);
    }
  }

  // What is shown and served.

  /** A value that is not empty is in the field. */
  ghost predicate Holds(fields: map<string, string>, field: string, value: string) {
    value != "" ==> field in fields && fields[field] == value
  }

  /** The field holds the lines. */
  ghost predicate HoldsLines(fields: map<string, string>, field: string, lines: seq<string>) {
    (exists i :: 0 <= i < |lines| && lines[i] != "") && (forall i | 0 <= i < |lines| :: '\n' !in lines[i]) ==>
      field in fields && Split(fields[field], '\n') == lines
  }

  /** The application's own row. */
  ghost predicate ShownAsAsked(s: Spec, app: Application) {
    && Holds(map["name" := app.name], "name", s.title)
    && app.mode == (if s.requireAll then "all" else "any")
    && (s.launchSet ==> Holds(app.meta, "meta_launch_url", if s.launchNone then "blank://blank" else s.launch))
    && (s.descriptionSet ==> Holds(app.meta, "meta_description", s.description))
    && (s.iconSet ==> "meta_icon" in app.meta && app.meta["meta_icon"] == s.icon)
  }

  /** The provider's row, whatever its type. */
  ghost predicate OwnedAsAsked(cfg: Config, lib: Library, s: Spec, p: Provider) {
    var flow := if s.flow == "" then cfg.authorizationFlow else s.flow;
    && p.name == s.slug + " (aboard)"
    && flow in lib.flows && Holds(p.fields, "authorization_flow", lib.flows[flow])
    && cfg.invalidationFlow in lib.flows && Holds(p.fields, "invalidation_flow", lib.flows[cfg.invalidationFlow])
  }

  /** The named certificate, else the first one there is. */
  ghost predicate SignedWith(lib: Library, name: string, key: string) {
    if name in lib.certificates then key == lib.certificates[name] else lib.firstKey == Some(key)
  }

  ghost predicate ProxyAsAsked(s: Spec, p: Provider) {
    && p.component.ProxyForm? && p.externalHost == "https://" + s.host
    && Holds(p.fields, "mode", "forward_single") && HoldsLines(p.fields, "skip_path_regex", s.publicPaths)
  }

  ghost predicate OidcAsAsked(cfg: Config, lib: Library, s: Spec, p: Provider) {
    && p.component.OAuth2Form?
    && Holds(p.fields, "client_type", if s.publicClient then "public" else "confidential")
    && Holds(p.fields, "client_id", if s.clientId != "" then s.clientId else s.slug)
    && HoldsLines(p.fields, "redirect_uris", s.redirect)
    && (!s.publicClient ==> exists secret :: cfg.secrets(s.secretName) == Some(secret) && |secret| >= 32 && Holds(p.fields, "client_secret", secret))
    && (exists key :: SignedWith(lib, cfg.oidcKey, key) && Holds(p.fields, "signing_key", key))
    && (forall scope | IsScope(cfg, s, scope) :: scope in lib.scopes && lib.scopes[scope] in p.mappings)
    && forall m | m in p.mappings :: exists scope :: IsScope(cfg, s, scope) && scope in lib.scopes && lib.scopes[scope] == m
  }

  /** The three scopes every client has, those of the labels, and the groups scope unless it is turned off. */
  ghost predicate IsScope(cfg: Config, s: Spec, scope: string) {
    || scope in {"openid", "email", "profile"} || scope in s.scopes
    || (s.groupsClaim && scope == if cfg.groupsScope != "" then cfg.groupsScope else "groups")
  }

  ghost predicate NoneTwice(xs: seq<string>) {
    forall i, j | 0 <= i < j < |xs| :: xs[i] != xs[j]
  }

  ghost predicate SamlAsAsked(cfg: Config, lib: Library, s: Spec, p: Provider) {
    && p.component.SamlForm?
    && Holds(p.fields, "acs_url", s.acs) && Holds(p.fields, "audience", s.audience) && Holds(p.fields, "issuer", s.issuer)
    && Holds(p.fields, "sp_binding", if s.postBinding then "post" else "redirect")
    && Holds(p.fields, "sign_assertion", "true") && Holds(p.fields, "sign_response", "false")
    && (exists key :: SignedWith(lib, cfg.samlKey, key) && Holds(p.fields, "signing_kp", key))
    && (forall n | n in s.samlMappings :: n in lib.samlMappings && lib.samlMappings[n] in p.mappings)
    && (forall m | m in lib.managedSaml :: m in p.mappings)
    && (lib.managedSaml + s.samlMappings != [] ==> forall m | m in p.mappings ::
          m in lib.managedSaml || exists n :: n in s.samlMappings && n in lib.samlMappings && lib.samlMappings[n] == m)
    && (lib.managedSaml + s.samlMappings != [] ==> NoneTwice(p.mappings))
  }

  /** The first outpost of the name lists the provider; "embedded" is the name of the managed one. */
  ghost predicate OnItsOutpost(cfg: Config, s: Spec, t: Tables, pk: nat) {
    var name := if s.outpost == "" then cfg.outpost else s.outpost;
    exists o :: 0 <= o < |t.outposts| && pk in t.outposts[o].providers && IsCalled(t.outposts[o], name)
      && forall i | 0 <= i < o :: !IsCalled(t.outposts[i], name)
  }

  ghost predicate IsCalled(o: Outpost, name: string) {
    if name == "embedded" then o.embedded else o.name == name
  }

  /** All that the labels ask for, row by row. */
  ghost predicate AsAsked(cfg: Config, lib: Library, s: Spec, t: Tables) {
    && GatedAsAsked(cfg, lib, s, t) && ShownAsAsked(s, t.apps[s.slug])
    && t.apps[s.slug].provider.Some? && t.apps[s.slug].provider.value in t.providers
    && var pk := t.apps[s.slug].provider.value;
       var p := t.providers[pk];
       && OwnedAsAsked(cfg, lib, s, p)
       && match s.provider
          case ForwardAuth => ProxyAsAsked(s, p) && OnItsOutpost(cfg, s, t, pk)
          case Oidc => OidcAsAsked(cfg, lib, s, p)
          case Saml => SamlAsAsked(cfg, lib, s, p)
          case Unrecognised => false
  }

  // What stays as it was.

  ghost predicate Same(before: map<string, string>, after: map<string, string>, key: string) {
    (key in before <==> key in after) && (key in before ==> after[key] == before[key])
  }

  /** Of the application: its pk, and of what the library shows all that the labels do not set. */
  ghost predicate AppAsFound(s: Spec, before: Application, after: Application) {
    && after.pk == before.pk
    && (forall k | k !in {"meta_launch_url", "meta_description", "meta_icon"} :: Same(before.meta, after.meta, k))
    && (!s.launchSet || (!s.launchNone && s.launch == "") ==> Same(before.meta, after.meta, "meta_launch_url"))
    && (!s.descriptionSet || s.description == "" ==> Same(before.meta, after.meta, "meta_description"))
    && (!s.iconSet ==> Same(before.meta, after.meta, "meta_icon"))
  }

  /** Of the provider: its type, and every field that its type does not have a label or a fixed value for. */
  ghost predicate ProviderAsFound(s: Spec, before: Provider, after: Provider) {
    && after.component == before.component && (!s.provider.ForwardAuth? ==> after.externalHost == before.externalHost)
    && match s.provider
       case ForwardAuth =>
         && after.mappings == before.mappings
         && (forall k | k !in {"authorization_flow", "invalidation_flow", "mode", "skip_path_regex"} :: Same(before.fields, after.fields, k))
         && (s.publicPaths == [] ==> Same(before.fields, after.fields, "skip_path_regex"))
       case Oidc =>
         && (forall k | k !in {"authorization_flow", "invalidation_flow", "client_type", "client_id", "redirect_uris", "client_secret", "signing_key"} ::
               Same(before.fields, after.fields, k))
         && (s.publicClient ==> Same(before.fields, after.fields, "client_secret"))
       case Saml =>
         && (forall k | k !in {"authorization_flow", "invalidation_flow", "acs_url", "audience", "issuer", "sp_binding", "signing_kp", "sign_assertion",
                               "sign_response"} :: Same(before.fields, after.fields, k))
         && (s.audience == "" ==> Same(before.fields, after.fields, "audience")) && (s.issuer == "" ==> Same(before.fields, after.fields, "issuer"))
       case Unrecognised => true
  }

  ghost predicate KeptAsFound(s: Spec, t0: Tables, t: Tables) {
    s.slug in t0.apps ==>
      && s.slug in t.apps && AppAsFound(s, t0.apps[s.slug], t.apps[s.slug])
      && (t0.apps[s.slug].provider.Some? && t0.apps[s.slug].provider.value in t0.providers ==>
            && t0.apps[s.slug].provider.value in t.providers
            && ProviderAsFound(s, t0.providers[t0.apps[s.slug].provider.value], t.providers[t0.apps[s.slug].provider.value]))
  }

  /** A body leaves what it does not mention, or mentions as empty. */
  lemma RestIsKept(fields: map<string, string>, m: map<string, string>)
    ensures forall k | k !in m || m[k] == "" :: Same(fields, fields + NonEmpty(m), k)
  {
  }

  lemma ProxyFieldsKept(s: Spec, authz: string, inval: string, p: Provider)
    requires s.provider.ForwardAuth?
    ensures ProviderAsFound(s, p, Overlay(p, ProxyBody(s, authz, inval)))
  {
    hide NonEmpty, Same, Marker;
    var m := map["authorization_flow" := authz, "invalidation_flow" := inval, "mode" := "forward_single",
                 "skip_path_regex" := Joined(s.publicPaths, '\n')];
    assert ProxyBody(s, authz, inval).fields == NonEmpty(m);
    RestIsKept(p.fields, m);
  }

  lemma OidcFieldsKept(s: Spec, authz: string, inval: string, secret: string, key: string, scopes: seq<string>, p: Provider)
    requires s.provider.Oidc? && (s.publicClient ==> secret == "")
    ensures ProviderAsFound(s, p, Overlay(p, OidcBody(s, authz, inval, secret, key, scopes)))
  {
    hide NonEmpty, Same, Marker, Joined;
    var m := map["authorization_flow" := authz, "invalidation_flow" := inval,
                 "client_type" := if s.publicClient then "public" else "confidential",
                 "client_id" := if s.clientId == "" then s.slug else s.clientId, "redirect_uris" := Joined(s.redirect, '\n'),
                 "client_secret" := secret, "signing_key" := key];
    assert OidcBody(s, authz, inval, secret, key, scopes).fields == NonEmpty(m);
    RestIsKept(p.fields, m);
  }

  lemma SamlFieldsKept(s: Spec, authz: string, inval: string, key: string, mappings: seq<string>, p: Provider)
    requires s.provider.Saml?
    ensures ProviderAsFound(s, p, Overlay(p, SamlBody(s, authz, inval, key, mappings)))
  {
    hide NonEmpty, Same, Marker;
    var m := map["authorization_flow" := authz, "invalidation_flow" := inval, "acs_url" := s.acs, "audience" := s.audience,
                 "issuer" := s.issuer, "sp_binding" := if s.postBinding then "post" else "redirect", "signing_kp" := key,
                 "sign_assertion" := "true", "sign_response" := "false"];
    assert SamlBody(s, authz, inval, key, mappings).fields == NonEmpty(m);
    RestIsKept(p.fields, m);
  }

  lemma LinesAreFound(lines: seq<string>, fields: map<string, string>, field: string)
    requires Joined(lines, '\n') != "" ==> field in fields && fields[field] == Joined(lines, '\n')
    ensures HoldsLines(fields, field, lines)
  {
    if (exists i :: 0 <= i < |lines| && lines[i] != "") && forall i | 0 <= i < |lines| :: '\n' !in lines[i] {
      PartsAreFound(lines, '\n');
    }
  }

  lemma {:induction false} SameMembersDeduped(xs: seq<string>)
    ensures forall x :: x in Dedupe(xs) <==> x in xs
  {
    if xs != [] {
      SameMembersDeduped(xs[..|xs| - 1]);
      assert xs == xs[..|xs| - 1] + [xs[|xs| - 1]];
    }
  }

  lemma {:induction false} DedupedOnce(xs: seq<string>)
    ensures NoneTwice(Dedupe(xs))
  {
    if xs != [] {
      var rest := Dedupe(xs[..|xs| - 1]);
      DedupedOnce(xs[..|xs| - 1]);
      assert forall i | 0 <= i < |rest| :: rest[i] in rest;
    }
  }

  lemma {:induction false} FirstIsFound(outposts: seq<Outpost>, name: string)
    requires FindOutpost(outposts, name).Some?
    ensures var o := FindOutpost(outposts, name).value;
            o < |outposts| && IsCalled(outposts[o], name) && forall i | 0 <= i < o :: !IsCalled(outposts[i], name)
  {
    var before := outposts[..|outposts| - 1];
    if FindOutpost(before, name).Some? {
      FirstIsFound(before, name);
    } else {
      NoneIsFound(before, name);
    }
  }

  lemma {:induction false} NoneIsFound(outposts: seq<Outpost>, name: string)
    requires FindOutpost(outposts, name).None?
    ensures forall i | 0 <= i < |outposts| :: !IsCalled(outposts[i], name)
  {
    if outposts != [] {
      NoneIsFound(outposts[..|outposts| - 1], name);
    }
  }

  lemma RealisedIsOwned(cfg: Config, lib: Library, s: Spec, t: Tables)
    requires Realised(cfg, lib, s, t)
    ensures s.slug in t.apps && t.apps[s.slug].provider.Some? && t.apps[s.slug].provider.value in t.providers
    ensures OwnedAsAsked(cfg, lib, s, t.providers[t.apps[s.slug].provider.value])
    ensures t.providers[t.apps[s.slug].provider.value].component == ComponentOf(s.provider) && !s.provider.Unrecognised?
  {
    CarriesBody(cfg, lib, s, t);
    FlowsCarried(cfg, lib, s, t.providers[t.apps[s.slug].provider.value]);
    hide ExactlyBound, WantedKeys, Resolvable, OverlayApp, DesiredBody, Overlay, Carries, Holds;
  }

  lemma FlowsCarried(cfg: Config, lib: Library, s: Spec, p: Provider)
    requires DesiredBody(cfg, lib, s).Some? && Carries(p, DesiredBody(cfg, lib, s).value)
    ensures !s.provider.Unrecognised? && FlowSlug(cfg, s) in lib.flows && cfg.invalidationFlow in lib.flows
    ensures Holds(p.fields, "authorization_flow", lib.flows[FlowSlug(cfg, s)])
    ensures Holds(p.fields, "invalidation_flow", lib.flows[cfg.invalidationFlow])
  {
    hide ScopeNames, Dedupe, Pks, SigningKey, Secret, Known, Joined;
  }

  lemma RealisedIsShown(cfg: Config, lib: Library, s: Spec, t: Tables)
    requires Realised(cfg, lib, s, t)
    ensures s.slug in t.apps && ShownAsAsked(s, t.apps[s.slug])
  {
    hide ExactlyBound, WantedKeys, Resolvable, Overlay, DesiredBody, OwnerOf, DesiredApp, ShownAsAsked;
    ShowsBody(s, t.apps[s.slug]);
  }

  lemma ShowsBody(s: Spec, app: Application)
    requires app.provider.Some? && OverlayApp(app, DesiredApp(s, app.provider.value)) == app
    requires s.iconSet ==> "meta_icon" in app.meta && app.meta["meta_icon"] == s.icon
    ensures ShownAsAsked(s, app)
  {
    var b := DesiredApp(s, app.provider.value);
    assert app.meta == app.meta + b.meta;
    assert forall k | k in b.meta :: k in app.meta && app.meta[k] == b.meta[k];
  }

  /** What the row carries of the body. */
  lemma CarriesBody(cfg: Config, lib: Library, s: Spec, t: Tables)
    requires Realised(cfg, lib, s, t)
    ensures s.slug in t.apps && t.apps[s.slug].provider.Some? && t.apps[s.slug].provider.value in t.providers && DesiredBody(cfg, lib, s).Some?
    ensures Carries(t.providers[t.apps[s.slug].provider.value], DesiredBody(cfg, lib, s).value)
  {
    hide ExactlyBound, WantedKeys, Resolvable, OverlayApp, DesiredBody;
    var p, b := t.providers[t.apps[s.slug].provider.value], DesiredBody(cfg, lib, s).value;
    assert p.fields == p.fields + b.fields;
  }

  lemma RealisedProxy(cfg: Config, lib: Library, s: Spec, t: Tables)
    requires Realised(cfg, lib, s, t) && s.provider.ForwardAuth?
    ensures s.slug in t.apps && t.apps[s.slug].provider.Some? && t.apps[s.slug].provider.value in t.providers
    ensures ProxyAsAsked(s, t.providers[t.apps[s.slug].provider.value])
  {
    CarriesBody(cfg, lib, s, t);
    RealisedIsOwned(cfg, lib, s, t);
    hide Realised, Split, Joined, HoldsLines, OwnedAsAsked;
    LinesAreFound(s.publicPaths, t.providers[t.apps[s.slug].provider.value].fields, "skip_path_regex");
  }

  lemma RealisedOidc(cfg: Config, lib: Library, s: Spec, t: Tables)
    requires Realised(cfg, lib, s, t) && s.provider.Oidc?
    ensures s.slug in t.apps && t.apps[s.slug].provider.Some? && t.apps[s.slug].provider.value in t.providers
    ensures OidcAsAsked(cfg, lib, s, t.providers[t.apps[s.slug].provider.value])
  {
    CarriesBody(cfg, lib, s, t);
    RealisedIsOwned(cfg, lib, s, t);
    hide Realised, OidcAsAsked, OwnedAsAsked, DesiredBody;
    OidcCarried(cfg, lib, s, t.providers[t.apps[s.slug].provider.value]);
  }

  ghost predicate Carries(p: Provider, b: ProviderBody) {
    && (b.externalHost != "" ==> p.externalHost == b.externalHost) && (b.mappings != [] ==> p.mappings == b.mappings)
    && forall k | k in b.fields :: k in p.fields && p.fields[k] == b.fields[k]
  }

  lemma OidcCarried(cfg: Config, lib: Library, s: Spec, p: Provider)
    requires s.provider.Oidc? && DesiredBody(cfg, lib, s).Some? && Carries(p, DesiredBody(cfg, lib, s).value) && p.component.OAuth2Form?
    ensures OidcAsAsked(cfg, lib, s, p)
  {
    hide Split, Joined, HoldsLines, Dedupe, IsScope, ScopeNames, Pks, FlowSlug;
    ScopesAreAll(cfg, lib, s);
    SignedAsNamed(lib, cfg.oidcKey);
    hide SignedWith, SigningKey;
    OidcFieldsCarried(cfg, lib, s, p);
  }

  lemma OidcFieldsCarried(cfg: Config, lib: Library, s: Spec, p: Provider)
    requires s.provider.Oidc? && DesiredBody(cfg, lib, s).Some? && Carries(p, DesiredBody(cfg, lib, s).value)
    ensures Holds(p.fields, "client_type", if s.publicClient then "public" else "confidential")
    ensures Holds(p.fields, "client_id", if s.clientId != "" then s.clientId else s.slug)
    ensures HoldsLines(p.fields, "redirect_uris", s.redirect)
    ensures !s.publicClient ==> exists secret :: cfg.secrets(s.secretName) == Some(secret) && |secret| >= 32 && Holds(p.fields, "client_secret", secret)
    ensures SigningKey(lib, cfg.oidcKey).Some? && Holds(p.fields, "signing_key", SigningKey(lib, cfg.oidcKey).value)
  {
    hide Split, Joined, HoldsLines, Dedupe, ScopeNames, Pks, FlowSlug, SigningKey, OidcBody, Carries, Holds, Known;
    OidcBodyCarried(s, lib.flows[FlowSlug(cfg, s)], lib.flows[cfg.invalidationFlow], Secret(cfg, s).value, SigningKey(lib, cfg.oidcKey).value,
                    Pks(ScopeNames(cfg, s), lib.scopes), p);
  }

  lemma OidcBodyCarried(s: Spec, authz: string, inval: string, secret: string, key: string, scopes: seq<string>, p: Provider)
    requires Carries(p, OidcBody(s, authz, inval, secret, key, scopes))
    ensures Holds(p.fields, "client_type", if s.publicClient then "public" else "confidential")
    ensures Holds(p.fields, "client_id", if s.clientId != "" then s.clientId else s.slug)
    ensures HoldsLines(p.fields, "redirect_uris", s.redirect)
    ensures Holds(p.fields, "client_secret", secret) && Holds(p.fields, "signing_key", key)
    ensures scopes != [] ==> p.mappings == scopes
  {
    hide Split, Joined, HoldsLines, NonEmpty;
    var m := map["authorization_flow" := authz, "invalidation_flow" := inval,
                 "client_type" := if s.publicClient then "public" else "confidential",
                 "client_id" := if s.clientId == "" then s.slug else s.clientId, "redirect_uris" := Joined(s.redirect, '\n'),
                 "client_secret" := secret, "signing_key" := key];
    NonEmptyHeld(m, p.fields);
    assert "client_type" in m && "client_id" in m && "redirect_uris" in m && "client_secret" in m && "signing_key" in m;
    LinesAreFound(s.redirect, p.fields, "redirect_uris");
  }

  lemma NonEmptyHeld(m: map<string, string>, fields: map<string, string>)
    requires forall k | k in NonEmpty(m) :: k in fields && fields[k] == NonEmpty(m)[k]
    ensures forall k | k in m :: Holds(fields, k, m[k])
  {
  }

  lemma SignedAsNamed(lib: Library, name: string)
    ensures SigningKey(lib, name).Some? ==> SignedWith(lib, name, SigningKey(lib, name).value)
  {
  }

  lemma ScopesAreAll(cfg: Config, lib: Library, s: Spec)
    ensures (forall scope :: scope in ScopeNames(cfg, s) <==> IsScope(cfg, s, scope)) && NoneTwice(ScopeNames(cfg, s))
    ensures Known(ScopeNames(cfg, s), lib.scopes) ==>
              var pks := Pks(ScopeNames(cfg, s), lib.scopes);
              && pks != []
              && (forall scope | scope in ScopeNames(cfg, s) :: lib.scopes[scope] in pks)
              && forall m | m in pks :: exists scope :: scope in ScopeNames(cfg, s) && lib.scopes[scope] == m
  {
    SameMembersDeduped(ALWAYS_SCOPES + s.scopes + if s.groupsClaim then [GroupsScope(cfg)] else []);
    DedupedOnce(ALWAYS_SCOPES + s.scopes + if s.groupsClaim then [GroupsScope(cfg)] else []);
    assert "openid" in ScopeNames(cfg, s);
    hide ScopeNames;
    if Known(ScopeNames(cfg, s), lib.scopes) {
      PksAreAll(ScopeNames(cfg, s), lib.scopes);
    }
  }

  lemma PksAreAll(names: seq<string>, table: map<string, string>)
    requires Known(names, table)
    ensures forall n | n in names :: table[n] in Pks(names, table)
    ensures forall m | m in Pks(names, table) :: exists n :: n in names && table[n] == m
  {
    var pks := Pks(names, table);
    forall n | n in names ensures table[n] in pks {
      var i :| 0 <= i < |names| && names[i] == n;
      assert pks[i] == table[n];
    }
    forall m | m in pks ensures exists n :: n in names && table[n] == m {
      var i :| 0 <= i < |pks| && pks[i] == m;
      assert names[i] in names && table[names[i]] == m;
    }
  }

  lemma RealisedSaml(cfg: Config, lib: Library, s: Spec, t: Tables)
    requires Realised(cfg, lib, s, t) && s.provider.Saml?
    ensures s.slug in t.apps && t.apps[s.slug].provider.Some? && t.apps[s.slug].provider.value in t.providers
    ensures SamlAsAsked(cfg, lib, s, t.providers[t.apps[s.slug].provider.value])
  {
    CarriesBody(cfg, lib, s, t);
    RealisedIsOwned(cfg, lib, s, t);
    hide Realised, SamlAsAsked, OwnedAsAsked, DesiredBody;
    SamlCarried(cfg, lib, s, t.providers[t.apps[s.slug].provider.value]);
  }

  lemma SamlCarried(cfg: Config, lib: Library, s: Spec, p: Provider)
    requires s.provider.Saml? && DesiredBody(cfg, lib, s).Some? && Carries(p, DesiredBody(cfg, lib, s).value) && p.component.SamlForm?
    ensures SamlAsAsked(cfg, lib, s, p)
  {
    hide Dedupe, FlowSlug, Pks, SamlBody, Carries, Holds, NoneTwice;
    MappingsAreAll(lib, s);
    SignedAsNamed(lib, cfg.samlKey);
    hide SignedWith, SigningKey;
    SamlBodyCarried(s, lib.flows[FlowSlug(cfg, s)], lib.flows[cfg.invalidationFlow], SigningKey(lib, cfg.samlKey).value,
                    Dedupe(lib.managedSaml + Pks(s.samlMappings, lib.samlMappings)), p);
  }

  lemma SamlBodyCarried(s: Spec, authz: string, inval: string, key: string, mappings: seq<string>, p: Provider)
    requires Carries(p, SamlBody(s, authz, inval, key, mappings))
    ensures Holds(p.fields, "acs_url", s.acs) && Holds(p.fields, "audience", s.audience) && Holds(p.fields, "issuer", s.issuer)
    ensures Holds(p.fields, "sp_binding", if s.postBinding then "post" else "redirect") && Holds(p.fields, "signing_kp", key)
    ensures Holds(p.fields, "sign_assertion", "true") && Holds(p.fields, "sign_response", "false")
    ensures mappings != [] ==> p.mappings == mappings
  {
    hide NonEmpty;
    var m := map["authorization_flow" := authz, "invalidation_flow" := inval, "acs_url" := s.acs, "audience" := s.audience,
                 "issuer" := s.issuer, "sp_binding" := if s.postBinding then "post" else "redirect", "signing_kp" := key,
                 "sign_assertion" := "true", "sign_response" := "false"];
    NonEmptyHeld(m, p.fields);
    assert "acs_url" in m && "audience" in m && "issuer" in m && "sp_binding" in m && "signing_kp" in m;
    assert "sign_assertion" in m && "sign_response" in m;
  }

  lemma MappingsAreAll(lib: Library, s: Spec)
    ensures Known(s.samlMappings, lib.samlMappings) ==>
              var all := Dedupe(lib.managedSaml + Pks(s.samlMappings, lib.samlMappings));
              && (all == [] <==> lib.managedSaml + s.samlMappings == []) && NoneTwice(all)
              && (forall n | n in s.samlMappings :: lib.samlMappings[n] in all) && (forall m | m in lib.managedSaml :: m in all)
              && forall m | m in all :: m in lib.managedSaml || exists n :: n in s.samlMappings && lib.samlMappings[n] == m
  {
    if Known(s.samlMappings, lib.samlMappings) {
      var own := Pks(s.samlMappings, lib.samlMappings);
      PksAreAll(s.samlMappings, lib.samlMappings);
      SameMembersDeduped(lib.managedSaml + own);
      DedupedOnce(lib.managedSaml + own);
      NoMembers(Dedupe(lib.managedSaml + own));
      NoMembers(lib.managedSaml + own);
      assert |own| == |s.samlMappings|;
      hide Pks, Dedupe;
    }
  }

  /** Converged means just that. */
  lemma ConvergedIsAsAsked(cfg: Config, lib: Library, s: Spec, t: Tables)
    requires Converged(cfg, lib, s, t)
    ensures AsAsked(cfg, lib, s, t)
  {
    hide GatedAsAsked, ShownAsAsked, OwnedAsAsked, ProxyAsAsked, OidcAsAsked, SamlAsAsked, IsCalled;
    assert Ready(cfg, lib, s, t);
    ReadyIsGated(cfg, lib, s, t);
    RealisedIsShown(cfg, lib, s, t);
    RealisedIsOwned(cfg, lib, s, t);
    match s.provider
    case ForwardAuth =>
      RealisedProxy(cfg, lib, s, t);
      FirstIsFound(t.outposts, OutpostName(cfg, s));
    case Oidc => RealisedOidc(cfg, lib, s, t);
    case Saml => RealisedSaml(cfg, lib, s, t);
    case Unrecognised =>
  }
}
