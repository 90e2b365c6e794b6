/** Exact-name provider lookups over the list endpoints, and the ownership test built on them. */
module Lookups {
  import opened Options
  import opened Authentik
  import opened Desired

  /** The provider of exactly this type and name, if there is one. */
  ghost predicate IsNamed(t: Tables, component: Component, name: string, found: Option<nat>) {
    match found
    case Some(p) => p in t.providers && t.providers[p].component == component && t.providers[p].name == name
    case None => forall p | p in t.providers :: t.providers[p].component != component || t.providers[p].name != name
  }

  /** A read-only stretch of calls: the tables stand still, and nothing fails in calm weather. */
  twostate predicate Looked(api: Server, answered: bool)
    reads api
  {
    && old(api.trace) <= api.trace && Reads(api.trace, |old(api.trace)|, api.tables)
    && old(api.calls) <= api.calls && (Calm(api.env, old(api.calls)) ==> answered)
  }

  /** The proxy and SAML endpoints serve one type each, so the name decides. */
  method GetByName(api: Server, kind: ProviderType, name: string) returns (r: Reply<Option<nat>>)
    requires kind.ForwardAuth? || kind.Saml?
    modifies api`calls, api`trace
    ensures Looked(api, r.Answer?) && api.calls == old(api.calls) + 1 && (r.Answer? <==> api.env.fault(old(api.calls)).Works?)
    ensures r.Answer? ==> IsNamed(api.tables, ComponentOf(kind), name, r.value)
  {
    var page := api.List(EndpointOf(kind));
    if page.Unreachable? {
      return Unreachable;
    }
    for i := 0 to |page.value|
      invariant forall j | 0 <= j < i :: api.tables.providers[page.value[j]].name != name
    {
      if api.tables.providers[page.value[i]].name == name {
        return Answer(Some(page.value[i]));
      }
    }
    assert forall p | p in api.tables.providers && api.tables.providers[p].component == ComponentOf(kind) ::
             Reachable(api.tables, EndpointOf(kind), p);
    return Answer(None);
  }

  /** The oauth2 endpoint also serves proxies, so each hit is confirmed by its pk. */
  method GetOAuth2ByName(api: Server, name: string) returns (r: Reply<Option<nat>>)
    modifies api`calls, api`trace
    ensures Looked(api, r.Answer?)
    ensures r.Answer? ==> IsNamed(api.tables, OAuth2Form, name, r.value)
    // With names unique the one hit takes two requests.
    ensures NamesUnique(api.tables) && (exists p :: IsNamed(api.tables, OAuth2Form, name, Some(p))) && AllWork(api.env, old(api.calls), 2) ==>
              r.Answer? && api.calls == old(api.calls) + 2
  {
    var page := api.List(OAuth2s);
    if page.Unreachable? {
      return Unreachable;
    }
    for i := 0 to |page.value|
      invariant old(api.calls) <= api.calls
      invariant old(api.trace) <= api.trace && Reads(api.trace, |old(api.trace)|, api.tables)
      invariant forall j | 0 <= j < i ::
                  api.tables.providers[page.value[j]].component != OAuth2Form || api.tables.providers[page.value[j]].name != name
      invariant NamesUnique(api.tables) && (exists p :: IsNamed(api.tables, OAuth2Form, name, Some(p))) ==>
                  api.calls == old(api.calls) + 1 && forall j | 0 <= j < i :: api.tables.providers[page.value[j]].name != name
    {
      if api.tables.providers[page.value[i]].name == name {
        var ref := api.Fetch(Lookup(api.tables.providers, page.value[i]));
        if ref.Unreachable? {
          return Unreachable;
        }
        if ref.value.Some? && ref.value.value.component == OAuth2Form {
          return Answer(Some(page.value[i]));
        }
      }
    }
    assert forall p | p in api.tables.providers && api.tables.providers[p].component == OAuth2Form ::
             Reachable(api.tables, OAuth2s, p);
    return Answer(None);
  }

  /** How many requests it takes to find an owner of this kind. */
  function LookupsFor(kind: ProviderType): nat {
    match kind
    case ForwardAuth => 1
    case Saml => 2
    case _ => 4
  }

  /** Whether the application at `slug` points at the marker-named provider, and of what type. */
  method ResolveOwnership(api: Server, slug: string, app: Application) returns (r: Reply<Ownership>)
    requires api.Valid()
    modifies api`calls, api`trace
    ensures Looked(api, r.Answer?)
    ensures r.Answer? ==> r.value == OwnerOf(api.tables, slug, app)
    ensures var own := OwnerOf(api.tables, slug, app);
            own.Owned? && AllWork(api.env, old(api.calls), LookupsFor(own.kind)) ==>
              r.Answer? && api.calls == old(api.calls) + LookupsFor(own.kind)
  {
    if app.provider.None? {
      return Answer(Unowned);
    }
    var name := Marker(slug);
    var proxy := GetByName(api, ForwardAuth, name);
    if proxy.Unreachable? {
      return Unreachable;
    }
    if proxy.value == app.provider {
      return Answer(Owned(ForwardAuth, proxy.value.value));
    }
    var saml := GetByName(api, Saml, name);
    if saml.Unreachable? {
      return Unreachable;
    }
    if saml.value == app.provider {
      return Answer(Owned(Saml, saml.value.value));
    }
    var oauth := GetOAuth2ByName(api, name);
    if oauth.Unreachable? {
      return Unreachable;
    }
    if oauth.value == app.provider && proxy.value != oauth.value {
      return Answer(Owned(Oidc, oauth.value.value));
    }
    OneNamed(api.tables, name, app.provider.value);
    return Answer(Unowned);
  }

  /** Names are unique, so a named provider is found by the lookup of its own type. */
  lemma OneNamed(t: Tables, name: string, p: nat)
    requires WellFormed(t)
    ensures forall component, found | IsNamed(t, component, name, found) && p in t.providers
                 && t.providers[p].name == name && t.providers[p].component == component :: found == Some(p)
  {
    forall component, found | IsNamed(t, component, name, found) && p in t.providers
        && t.providers[p].name == name && t.providers[p].component == component
      ensures found == Some(p)
    {
      assert found.Some? ==> NameFree(t, t.providers[found.value].name, found.value);
    }
  }
}
