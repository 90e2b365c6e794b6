/** The gate in front of the writes, and the provider and application writes themselves. */
module Provision {
  import opened Options
  import opened Authentik
  import opened Desired
  import opened Lookups
  import opened Bindings
  import opened Law

  /** An empty diff means the bindings are exactly the wanted ones already. */
  lemma EmptyDiffIsExact(bindings: map<nat, Binding>, app: nat, existing: seq<nat>, desired: seq<Key>, adds: seq<Key>, removes: seq<nat>)
    requires forall b :: b in existing <==> b in bindings && bindings[b].target == app
    requires forall k :: k in adds <==> k in desired && forall i | 0 <= i < |existing| :: KeyOf(bindings[existing[i]]) != Some(k)
    requires forall b :: b in removes <==> b in existing && Stray(bindings[b], desired)
    ensures adds == [] && removes == [] <==> ExactlyBound(bindings, app, desired)
  {
    if adds == [] && removes == [] {
      forall b | b in bindings && bindings[b].target == app ensures !Stray(bindings[b], desired) {
        assert b in existing && b !in removes;
      }
      forall k | k in desired ensures Bound(bindings, app, k) {
        assert k !in adds;
        var i :| 0 <= i < |existing| && KeyOf(bindings[existing[i]]) == Some(k);
        assert existing[i] in existing;
        NowBound(bindings, app, existing[i]);
      }
    }
    SomeMember(adds);
    SomeMember(removes);
    if ExactlyBound(bindings, app, desired) {
      forall k | k in desired ensures k !in adds {
        var b :| b in bindings && bindings[b].target == app && KeyOf(bindings[b]) == Some(k);
        assert b in existing;
      }
    }
  }

  lemma SomeMember<T>(s: seq<T>)
    ensures s != [] ==> exists x :: x in s
  {
    if s != [] {
      assert s[0] in s;
    }
  }

  /** Whether a pre-existing application may be taken over. Reads only. */
  method AdoptionGate(api: Server, res: Result, s: Spec, app: Application, own: Ownership, desired: seq<Key>)
    returns (err: Option<Code>)
    requires own == OwnerOf(api.tables, s.slug, app) && !(own.Owned? && own.kind == s.provider)
    modifies api`calls, api`trace, res`adopted, res`issues
    ensures Looked(api, err != Some(ApiError)) && Reported(old(res.issues), res.issues, err)
    ensures err == Some(ApiError) || err == GateVerdict(api.tables, s, app, desired)
    ensures res.adopted == (old(res.adopted) || err.None?)
  {
    if own.Owned? {
      err := res.Fail(AdoptTypeChange);
      return;
    }
    if app.provider.Some? {
      var ref := api.Fetch(Lookup(api.tables.providers, app.provider.value));
      if ref.Unreachable? {
        err := res.Fail(ApiError);
        return;
      }
      if ref.value.Some? && KindOf(ref.value.value.component) !in [Unrecognised, s.provider] {
        err := res.Fail(AdoptTypeChange);
        return;
      }
    }
    var differs := app.name != s.title || (app.mode != "" && app.mode != Mode(s));
    var existing := api.ListBindings(app.pk);
    if existing.Unreachable? {
      err := res.Fail(ApiError);
      return;
    }
    var adds, removes := BindingDiff(api.tables.bindings, existing.value, desired);
    EmptyDiffIsExact(api.tables.bindings, app.pk, existing.value, desired, adds, removes);
    differs := differs || adds != [] || removes != [];
    if differs && !s.adopt {
      err := res.Fail(AdoptConflict);
      return;
    }
    res.Note(Info, Adopted);
    res.adopted := true;
    err := None;
  }

  /** Refuses a second aboard-named proxy provider on the host. Reads only. */
  method CheckExternalHostCollision(api: Server, res: Result, s: Spec, adopt: Option<nat>) returns (err: Option<Code>)
    requires adopt == AdoptTarget(api.tables, s)
    modifies api`calls, api`trace, res`issues
    ensures Looked(api, err != Some(ApiError)) && Reported(old(res.issues), res.issues, err)
    ensures err.None? ==> forall p | p in api.tables.providers :: !Collides(api.tables, s, p)
    ensures err == Some(DuplicateHost) ==> exists p :: p in api.tables.providers && Collides(api.tables, s, p)
    ensures err in {None, Some(DuplicateHost), Some(ApiError)}
  {
    var page := api.List(Proxies);
    if page.Unreachable? {
      err := res.Fail(ApiError);
      return;
    }
    for i := 0 to |page.value|
      invariant res.issues == old(res.issues)
      invariant forall j | 0 <= j < i :: !Collides(api.tables, s, page.value[j])
    {
      var row := api.tables.providers[page.value[i]];
      if IsAboardName(row.name) && row.name != Marker(s.slug) && adopt != Some(page.value[i])
         && row.externalHost == "https://" + s.host {
        err := res.Fail(DuplicateHost);
        return;
      }
    }
    assert forall p | p in api.tables.providers && api.tables.providers[p].component.ProxyForm? :: Reachable(api.tables, Proxies, p);
    err := None;
  }

  // The desired bodies.

  method ResolveSigningKey(api: Server, res: Result, name: string) returns (err: Option<Code>, key: string)
    modifies api`calls, api`trace, res`issues
    ensures Looked(api, err != Some(ApiError)) && Reported(old(res.issues), res.issues, err)
    ensures err.None? ==> SigningKey(api.lib, name) == Some(key)
    ensures err.Some? && err != Some(ApiError) ==> SigningKey(api.lib, name).None? && err == Some(SigningKeyMissing)
  {
    key := "";
    var cert := api.Fetch(Lookup(api.lib.certificates, name));
    if cert.Unreachable? {
      err := res.Fail(ApiError);
      return;
    }
    if cert.value.Some? {
      return None, cert.value.value;
    }
    var first := api.Fetch(api.lib.firstKey);
    if first.Unreachable? {
      err := res.Fail(ApiError);
      return;
    }
    if first.value.None? {
      err := res.Fail(SigningKeyMissing);
      return;
    }
    return None, first.value.value;
  }

  /** The pks of named mappings, or the code `missing(name)` for the first that does not exist. */
  method ResolveMappings(api: Server, res: Result, names: seq<string>, table: map<string, string>, missing: string -> Code)
    returns (err: Option<Code>, pks: seq<string>)
    requires forall n :: missing(n) != ApiError
    modifies api`calls, api`trace, res`issues
    ensures Looked(api, err != Some(ApiError)) && Reported(old(res.issues), res.issues, err)
    ensures err.None? ==> Known(names, table) && pks == Pks(names, table)
    ensures err.Some? && err != Some(ApiError) ==>
              FirstMissing(names, table).Some? && err == Some(missing(FirstMissing(names, table).value))
  {
    pks := [];
    for i := 0 to |names|
      invariant res.issues == old(res.issues) && old(api.calls) <= api.calls
      invariant old(api.trace) <= api.trace && Reads(api.trace, |old(api.trace)|, api.tables)
      invariant |pks| == i && forall j | 0 <= j < i :: names[j] in table && pks[j] == table[names[j]]
    {
      var found := api.Fetch(Lookup(table, names[i]));
      if found.Unreachable? {
        err := res.Fail(ApiError);
        return;
      }
      if found.value.None? {
        MissingIsFirst(names, table, i);
        err := res.Fail(missing(names[i]));
        return;
      }
      pks := pks + [found.value.value];
    }
    err := None;
  }

  lemma {:induction false} MissingIsFirst(names: seq<string>, table: map<string, string>, i: nat)
    requires i < |names| && names[i] !in table && forall j | 0 <= j < i :: names[j] in table
    ensures FirstMissing(names, table) == Some(names[i])
  {
    if i > 0 {
      MissingIsFirst(names[1..], table, i - 1);
    }
  }

  /** The body of an OIDC provider: client secret, signing key and scopes resolved inward. */
  method BuildOidcBody(api: Server, cfg: Config, res: Result, s: Spec, authz: string, inval: string)
    returns (err: Option<Code>, body: ProviderBody)
    requires s.provider.Oidc? && Lookup(api.lib.flows, FlowSlug(cfg, s)) == Some(authz)
    requires Lookup(api.lib.flows, cfg.invalidationFlow) == Some(inval)
    modifies api`calls, api`trace, res`issues
    ensures Looked(api, err != Some(ApiError)) && Reported(old(res.issues), res.issues, err)
    ensures err.None? ==> DesiredBody(cfg, api.lib, s) == Some(body)
    ensures err.Some? && err != Some(ApiError) ==> err == BodyRefusal(cfg, api.lib, s)
  {
    hide ScopeNames, OidcBody, SigningKey, Errors;
    body := ProviderBody("", "", map[], []);
    var secret := "";
    if !s.publicClient {
      var resolved := cfg.secrets(s.secretName);
      if resolved.None? {
        err := res.Fail(SecretMissing);
        return;
      }
      if |resolved.value| < MIN_SECRET {
        err := res.Fail(SecretWeak);
        return;
      }
      secret := resolved.value;
    }
    var key, pks;
    err, key := ResolveSigningKey(api, res, cfg.oidcKey);
    if err.Some? {
      return;
    }
    err, pks := ResolveMappings(api, res, ScopeNames(cfg, s), api.lib.scopes,
      n => ScopeRefusal(cfg, s, n));
    if err.Some? {
      return;
    }
    body := OidcBody(s, authz, inval, secret, key, pks);
  }

  method BuildSamlBody(api: Server, cfg: Config, res: Result, s: Spec, authz: string, inval: string)
    returns (err: Option<Code>, body: ProviderBody)
    requires s.provider.Saml? && Lookup(api.lib.flows, FlowSlug(cfg, s)) == Some(authz)
    requires Lookup(api.lib.flows, cfg.invalidationFlow) == Some(inval)
    modifies api`calls, api`trace, res`issues
    ensures Looked(api, err != Some(ApiError)) && Reported(old(res.issues), res.issues, err)
    ensures err.None? ==> DesiredBody(cfg, api.lib, s) == Some(body)
    ensures err.Some? && err != Some(ApiError) ==> err == BodyRefusal(cfg, api.lib, s)
  {
    hide SamlBody, SigningKey, Errors, Dedupe;
    body := ProviderBody("", "", map[], []);
    var key, extras;
    err, key := ResolveSigningKey(api, res, cfg.samlKey);
    if err.Some? {
      return;
    }
    var managed := api.Fetch(api.lib.managedSaml);
    if managed.Unreachable? {
      err := res.Fail(ApiError);
      return;
    }
    err, extras := ResolveMappings(api, res, s.samlMappings, api.lib.samlMappings, _ => SamlMappingMissing);
    if err.Some? {
      return;
    }
    body := SamlBody(s, authz, inval, key, Dedupe(managed.value + extras));
  }

  // The writes.

  ghost predicate ProviderSteps(cfg: Config, lib: Library, s: Spec, t: Tables, target: nat, trace: seq<Entry>, n: nat) {
    n <= |trace| && forall i | n <= i < |trace| :: ProviderStep(cfg, lib, s, t, target, trace[i])
  }

  /** Writes the body to the adopted row, to the marker-named row of the type, or to a new one. */
  method Place(api: Server, cfg: Config, res: Result, s: Spec, body: ProviderBody, adopt: Option<nat>)
    returns (err: Option<Code>, pk: nat, ghost target: nat)
    requires api.Valid() && DesiredBody(cfg, api.lib, s) == Some(body) && adopt == AdoptTarget(api.tables, s)
    modifies api`tables, api`calls, api`trace, res`issues
    ensures api.Valid() && Reported(old(res.issues), res.issues, err)
    ensures old(api.trace) <= api.trace && old(api.calls) <= api.calls
    ensures IsTarget(old(api.tables), s, target)
    ensures ProviderSteps(cfg, api.lib, s, old(api.tables), target, api.trace, |old(api.trace)|)
    ensures ProviderStep(cfg, api.lib, s, old(api.tables), target, Entry(Read, api.tables))
    ensures err.None? ==> pk == target && Placeable(old(api.tables), s.provider, body, target)
                          && api.tables == Placed(old(api.tables), s.provider, body, target)
    ensures err in {None, Some(ApiError)}
    // With names unique, calm weather and a row of the right type, nothing can refuse the body.
    ensures Calm(api.env, old(api.calls)) && Placeable(old(api.tables), s.provider, body, target)
              && (adopt.None? || target in old(api.tables).providers)
            ==> err.None?
  {
    hide WellFormed, Errors, DesiredBody, IsAboardName, Placed, ProviderStep, ProviderSteps, Placeable, Apply, AdoptTarget, Overlay;
    ghost var t0, n := api.tables, |api.trace|;
    pk := 0;
    if adopt.Some? {
      target := adopt.value;
      err, pk := SendBody(api, cfg, res, s, body, target, PatchProvider(EndpointOf(s.provider), adopt.value, body), t0, n);
      return;
    }
    var found;
    if s.provider.Oidc? {
      found := GetOAuth2ByName(api, Marker(s.slug));
    } else {
      DesiredName(cfg, api.lib, s);
      found := GetByName(api, s.provider, Marker(s.slug));
    }
    ReadsAreProviderSteps(cfg, api.lib, s, t0, api.trace, n);
    if found.Unreachable? {
      SomeTarget(t0, s);
      target :| IsTarget(t0, s, target);
      err := res.Fail(ApiError);
      return;
    }
    if found.value.None? {
      target := t0.next;
      NextIsTarget(api, s);
      err, pk := SendBody(api, cfg, res, s, body, target, CreateProvider(ComponentOf(s.provider), body), t0, n);
      return;
    }
    target := found.value.value;
    err, pk := SendBody(api, cfg, res, s, body, target, PatchProvider(EndpointOf(s.provider), found.value.value, body), t0, n);
  }

  /** The write itself, after nothing but reads. */
  method SendBody(api: Server, cfg: Config, res: Result, s: Spec, body: ProviderBody, ghost target: nat, op: Op, ghost t0: Tables, ghost n: nat)
    returns (err: Option<Code>, pk: nat)
    requires api.Valid() && DesiredBody(cfg, api.lib, s) == Some(body) && api.tables == t0 && Reads(api.trace, n, t0)
    requires op == PatchProvider(EndpointOf(s.provider), target, body)
             || (op == CreateProvider(ComponentOf(s.provider), body) && target == t0.next && target !in t0.providers)
    modifies api`tables, api`calls, api`trace, res`issues
    ensures api.Valid() && Reported(old(res.issues), res.issues, err)
    ensures old(api.trace) <= api.trace && old(api.calls) <= api.calls
    ensures ProviderSteps(cfg, api.lib, s, t0, target, api.trace, n)
    ensures ProviderStep(cfg, api.lib, s, t0, target, Entry(Read, api.tables))
    ensures err.None? ==> pk == target && Placeable(t0, s.provider, body, target) && api.tables == Placed(t0, s.provider, body, target)
    ensures err in {None, Some(ApiError)}
    ensures Calm(api.env, old(api.calls)) && Placeable(t0, s.provider, body, target) && (op.CreateProvider? || target in t0.providers) ==> err.None?
  {
    hide WellFormed, Errors, DesiredBody, Placed, ProviderStep, Placeable, Apply, Overlay;
    pk := 0;
    DesiredName(cfg, api.lib, s);
    ReadsAreProviderSteps(cfg, api.lib, s, t0, api.trace, n);
    var written := api.Commit(op);
    WriteIsProviderStep(cfg, api.lib, s, t0, body, target, op, api.tables);
    if !written.Written? {
      err := res.Fail(ApiError);
      return;
    }
    return None, written.pk;
  }

  lemma ReadsAreProviderSteps(cfg: Config, lib: Library, s: Spec, t: Tables, trace: seq<Entry>, n: nat)
    requires Reads(trace, n, t)
    ensures forall target :: ProviderStep(cfg, lib, s, t, target, Entry(Read, t))
    ensures forall target :: ProviderSteps(cfg, lib, s, t, target, trace, n)
  {
  }

  lemma NextIsTarget(api: Server, s: Spec)
    requires api.Valid()
    ensures api.tables.next !in api.tables.providers
  {
  }

  lemma SomeTarget(t: Tables, s: Spec)
    requires WellFormed(t)
    ensures exists target :: IsTarget(t, s, target)
  {
    if AdoptTarget(t, s).Some? {
      assert IsTarget(t, s, AdoptTarget(t, s).value);
    } else if p :| p in t.providers && t.providers[p].component == ComponentOf(s.provider) && t.providers[p].name == Marker(s.slug) {
      assert IsTarget(t, s, p);
    } else {
      assert IsTarget(t, s, t.next);
    }
  }

  lemma WriteIsProviderStep(cfg: Config, lib: Library, s: Spec, t: Tables, body: ProviderBody, target: nat, op: Op, after: Tables)
    requires DesiredBody(cfg, lib, s) == Some(body) && body.name != ""
    requires op == PatchProvider(EndpointOf(s.provider), target, body)
             || (op == CreateProvider(ComponentOf(s.provider), body) && target == t.next && target !in t.providers)
    requires after == t || (Apply(t, op).Applied? && after == Apply(t, op).tables)
    ensures ProviderStep(cfg, lib, s, t, target, Entry(op, after)) && ProviderStep(cfg, lib, s, t, target, Entry(Read, after))
    ensures Apply(t, op).Applied? ==> Apply(t, op).pk == target && Apply(t, op).tables == Placed(t, s.provider, body, target)
    ensures Apply(t, op).Applied? ==> Placeable(t, s.provider, body, target)
    ensures (op.PatchProvider? ==> target in t.providers) ==> (Apply(t, op).Applied? <==> Placeable(t, s.provider, body, target))
  {
  }

  ghost predicate AppSteps(s: Spec, t: Tables, provider: nat, trace: seq<Entry>, n: nat) {
    n <= |trace| && forall i | n <= i < |trace| :: AppStep(s, t, provider, trace[i])
  }

  /** Creates or patches the application, then sets its icon when one is declared. */
  method ConvergeApplication(api: Server, res: Result, s: Spec, provider: nat, appExists: bool)
    returns (err: Option<Code>, appPk: nat)
    requires api.Valid() && appExists == (s.slug in api.tables.apps)
    modifies api`tables, api`calls, api`trace, res`issues
    ensures api.Valid() && Reported(old(res.issues), res.issues, err)
    ensures old(api.trace) <= api.trace && old(api.calls) <= api.calls
    ensures AppSteps(s, old(api.tables), provider, api.trace, |old(api.trace)|)
    ensures AppStep(s, old(api.tables), provider, Entry(Read, api.tables))
    ensures err.None? ==> appPk == AppRow(old(api.tables), s, provider).pk < api.tables.next
                          && api.tables == WithApp(old(api.tables), s, Iconed(s, AppRow(old(api.tables), s, provider)))
    ensures err in {None, Some(ApiError)}
    ensures Calm(api.env, old(api.calls)) && LinkFree(old(api.tables), provider, s.slug) ==> err.None?
  {
    hide WellFormed, Errors, Apply, AppRow, Iconed, WithApp, LinkFree;
    ghost var t0 := api.tables;
    appPk := 0;
    var op := if appExists then PatchApp(s.slug, DesiredApp(s, provider)) else CreateApp(s.slug, DesiredApp(s, provider));
    var written := api.Commit(op);
    WriteIsAppStep(s, t0, provider, op, api.tables);
    if !written.Written? {
      err := res.Fail(ApiError);
      return;
    }
    appPk := written.pk;
    if s.iconSet {
      ghost var t1 := api.tables;
      var iconed := api.Commit(SetIcon(s.slug, s.icon));
      IconIsAppStep(s, t0, provider, t1, api.tables);
      if !iconed.Written? {
        err := res.Fail(ApiError);
        return;
      }
    }
    AppBelow(api, s.slug);
    err := None;
  }

  lemma WriteIsAppStep(s: Spec, t: Tables, provider: nat, op: Op, after: Tables)
    requires op == if s.slug in t.apps then PatchApp(s.slug, DesiredApp(s, provider)) else CreateApp(s.slug, DesiredApp(s, provider))
    requires after == t || (Apply(t, op).Applied? && after == Apply(t, op).tables)
    ensures AppStep(s, t, provider, Entry(op, after)) && AppStep(s, t, provider, Entry(Read, after))
    ensures Apply(t, op).Applied? <==> LinkFree(t, provider, s.slug)
    ensures Apply(t, op).Applied? ==> Apply(t, op) == Applied(WithApp(t, s, AppRow(t, s, provider)), AppRow(t, s, provider).pk)
    ensures s.slug in WithApp(t, s, AppRow(t, s, provider)).apps
    ensures WithApp(t, s, AppRow(t, s, provider)).apps[s.slug].pk == AppRow(t, s, provider).pk
    ensures !s.iconSet ==> Iconed(s, AppRow(t, s, provider)) == AppRow(t, s, provider)
    ensures !op.PatchOutpost? && !op.PatchProvider?
  {
  }

  lemma IconIsAppStep(s: Spec, t: Tables, provider: nat, t1: Tables, after: Tables)
    requires s.iconSet && t1 == WithApp(t, s, AppRow(t, s, provider))
    requires after == t1 || (Apply(t1, SetIcon(s.slug, s.icon)).Applied? && after == Apply(t1, SetIcon(s.slug, s.icon)).tables)
    ensures AppStep(s, t, provider, Entry(SetIcon(s.slug, s.icon), after)) && AppStep(s, t, provider, Entry(Read, after))
    ensures Apply(t1, SetIcon(s.slug, s.icon)).Applied?
    ensures Apply(t1, SetIcon(s.slug, s.icon)).tables == WithApp(t, s, Iconed(s, AppRow(t, s, provider)))
    ensures s.slug in after.apps && after.apps[s.slug].pk == AppRow(t, s, provider).pk
  {
    var row := AppRow(t, s, provider);
    assert t.apps[s.slug := row][s.slug := Iconed(s, row)] == t.apps[s.slug := Iconed(s, row)];
  }

  lemma AppBelow(api: Server, slug: string)
    requires api.Valid() && slug in api.tables.apps
    ensures api.tables.apps[slug].pk < api.tables.next
  {
  }

  /** Resolves everything the provider body names. */
  method BuildBody(api: Server, cfg: Config, res: Result, s: Spec, authz: string, inval: string)
    returns (err: Option<Code>, body: ProviderBody)
    requires Lookup(api.lib.flows, FlowSlug(cfg, s)) == Some(authz)
    requires Lookup(api.lib.flows, cfg.invalidationFlow) == Some(inval)
    modifies api`calls, api`trace, res`issues
    ensures Looked(api, err != Some(ApiError)) && Reported(old(res.issues), res.issues, err)
    ensures err.None? ==> DesiredBody(cfg, api.lib, s) == Some(body)
    ensures err.Some? && err != Some(ApiError) ==> err == BodyRefusal(cfg, api.lib, s)
  {
    body := ProxyBody(s, authz, inval);
    match s.provider {
      case ForwardAuth => err := None;
      case Oidc => err, body := BuildOidcBody(api, cfg, res, s, authz, inval);
      case Saml => err, body := BuildSamlBody(api, cfg, res, s, authz, inval);
      case Unrecognised => err := res.Fail(ProviderUnknown);
    }
  }
}
