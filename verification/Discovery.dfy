/** Discovery: from a container's labels to a desired state, or to the reasons why not. */
module Discovery {
  import opened Options
  import opened Authentik
  import opened Desired
  import opened Text
  import opened Routers
  import opened Namespace
  import opened Slug
  import opened Grammar

  // The desired state.

  /** The fleet's proxy switch, and the URL grammar as a predicate. */
  datatype Rules = Rules(traefik: bool, absolute: string -> bool)

  datatype Container = Container(name: string, labels: Labels)

  const COMPOSE_SERVICE := "com.docker.compose.service"

  function FirstNonEmpty(a: string, b: string): string {
    if a != "" then a else b
  }

  function ServiceName(c: Container, norm: Labels): string {
    FirstNonEmpty(Get(norm, "name"), FirstNonEmpty(Get(c.labels, COMPOSE_SERVICE), if "/" <= c.name then c.name[1..] else c.name))
  }

  function ProviderNamed(val: string): Option<ProviderType> {
    if val in {"", "forwardauth"} then Some(ForwardAuth) else if val == "oidc" then Some(Oidc) else if val == "saml" then Some(Saml) else None
  }

  /** No label belongs to a family this provider, or this fleet, does not have. */
  ghost predicate RightFamily(rules: Rules, norm: Labels, kind: ProviderType) {
    forall s | s in norm ::
      && (IsForwardKey(s) ==> kind.ForwardAuth?) && (IsOidcKey(s) ==> kind.Oidc?) && (IsSamlKey(s) ==> kind.Saml?)
      && (IsTraefikKey(s) ==> rules.traefik)
  }

  ghost predicate AccessOk(norm: Labels) {
    && ("groups.claim" in norm ==> norm["groups.claim"] in {"true", "false"})
    && Get(norm, "require") in {"", "any", "all"}
  }

  ghost predicate OidcFits(rules: Rules, f: Spec) {
    f.provider.Oidc? ==>
      f.redirect != [] && (forall i | 0 <= i < |f.redirect| :: rules.absolute(f.redirect[i])) && (f.secretName != "" <==> !f.publicClient)
  }

  ghost predicate SamlFits(rules: Rules, f: Spec) {
    f.provider.Saml? ==> f.acs != "" && rules.absolute(f.acs)
  }

  ghost predicate HostFits(labels: Labels, norm: Labels, kind: ProviderType, host: string) {
    if kind.Saml? then host == ""
    else if "host" in norm then IsBareHost(norm["host"]) && host == norm["host"]
    else Infers(labels, host)
  }

  ghost predicate NoConflict(labels: Labels) {
    forall s :: !Conflicted(labels, s)
  }

  /** Everything a container must satisfy to be acted on. */
  ghost predicate Accepted(rules: Rules, labels: Labels, norm: Labels, f: Spec) {
    && NoConflict(labels)
    && (forall s | s in norm :: InGrammar(s))
    && ("slug" in norm ==> IsValidSlug(norm["slug"]))
    && ProviderNamed(Get(norm, "provider")).Some? && RightFamily(rules, norm, f.provider)
    && HostFits(labels, norm, f.provider, f.host) && AccessOk(norm)
    && !BothForms(norm, "forwardauth.public", PUBLIC) && !BothForms(norm, "oidc.redirect", REDIRECT)
    && Get(norm, "oidc.client") in {"", "confidential", "public"} && Get(norm, "saml.binding") in {"", "post", "redirect"}
    && OidcFits(rules, f) && SamlFits(rules, f)
  }

  /** The fields that are what the label says. */
  ghost predicate Copied(norm: Labels, f: Spec) {
    && f.title == FirstNonEmpty(Get(norm, "title"), f.name)
    && f.flow == Get(norm, "flow") && (f.adopt <==> Get(norm, "adopt") == "true") && (f.groupsSet <==> "groups" in norm)
    && f.policies == Fields(Get(norm, "policies")) && f.outpost == Get(norm, "outpost")
    && (f.launchSet <==> "launch" in norm) && (f.launchNone <==> Get(norm, "launch") == "none")
    && f.launch == (if Get(norm, "launch") == "none" then "" else Get(norm, "launch"))
    && (f.descriptionSet <==> "description" in norm) && f.description == Get(norm, "description")
    && (f.iconSet <==> "icon" in norm) && f.icon == Get(norm, "icon")
    && f.clientId == FirstNonEmpty(Get(norm, "oidc.id"), f.slug) && f.scopes == Fields(Get(norm, "oidc.scopes"))
    && f.acs == Get(norm, "saml.acs") && f.audience == Get(norm, "saml.audience") && f.issuer == Get(norm, "saml.issuer")
  }

  /** What the fields mean, accepted or not. */
  ghost predicate Means(c: Container, norm: Labels, f: Spec) {
    && f.name == ServiceName(c, norm) && f.slug == (if "slug" in norm then norm["slug"] else Derived(f.name))
    && f.provider == (if ProviderNamed(Get(norm, "provider")).Some? then ProviderNamed(Get(norm, "provider")).value else ForwardAuth)
    && (HostFits(c.labels, norm, f.provider, f.host) || (f.host == "" && exists x :: HostComplaint(c.labels, norm, f.provider, x)))
    && f.groups == (if Get(norm, "groups") == "none" then [] else Fields(Get(norm, "groups")))
    && (f.groupsClaim <==> Get(norm, "groups.claim") != "false") && (f.requireAll <==> Get(norm, "require") == "all")
    && FamiliesMean(norm, f) && Copied(norm, f)
  }

  /** The fields that belong to one type of provider. */
  ghost predicate FamiliesMean(norm: Labels, f: Spec) {
    && IsList(norm, "forwardauth.public", PUBLIC, f.publicPaths) && f.routers == Fields(Get(norm, "traefik.routers"))
    && (f.publicClient <==> Get(norm, "oidc.client") == "public") && f.secretName == Get(norm, "oidc.secret")
    && IsList(norm, "oidc.redirect", REDIRECT, f.redirect)
    && (f.postBinding <==> Get(norm, "saml.binding") != "redirect") && f.samlMappings == Fields(Get(norm, "saml.mappings"))
  }

  // The complaints, one section at a time.

  ghost predicate SuffixComplaint(norm: Labels, x: Complaint) {
    exists s :: s in norm && Misfit(s) == Some(x)
  }

  ghost predicate IdentityComplaint(norm: Labels, x: Complaint) {
    || (x.SlugInvalid? && "slug" in norm && !IsValidSlug(norm["slug"]))
    || (x.ProviderInvalid? && ProviderNamed(Get(norm, "provider")).None?)
  }

  ghost predicate HostComplaint(labels: Labels, norm: Labels, kind: ProviderType, x: Complaint) {
    !kind.Saml? && if "host" in norm then x.HostInvalid? && !IsBareHost(norm["host"]) else Uninferred(labels, x)
  }

  ghost predicate AccessComplaint(norm: Labels, x: Complaint) {
    || (x.GroupsClaimInvalid? && "groups.claim" in norm && norm["groups.claim"] !in {"true", "false"})
    || (x.RequireInvalid? && Get(norm, "require") !in {"", "any", "all"})
  }

  ghost predicate Carries(norm: Labels, kind: string -> bool) {
    exists s :: s in norm && kind(s)
  }

  ghost predicate ForwardComplaint(rules: Rules, norm: Labels, kind: ProviderType, x: Complaint) {
    || (x.WrongProvider? && !kind.ForwardAuth? && Carries(norm, IsForwardKey))
    || (x.ProxyNoneTraefik? && !rules.traefik && Carries(norm, IsTraefikKey))
    || (x.IndexedConflict? && BothForms(norm, "forwardauth.public", PUBLIC))
  }

  ghost predicate OidcComplaint(norm: Labels, kind: ProviderType, x: Complaint) {
    || (x.WrongProvider? && !kind.Oidc? && Carries(norm, IsOidcKey))
    || (x.ClientInvalid? && Get(norm, "oidc.client") !in {"", "confidential", "public"})
    || (x.IndexedConflict? && BothForms(norm, "oidc.redirect", REDIRECT))
  }

  ghost predicate ClientComplaint(rules: Rules, redirect: seq<string>, secret: string, publicClient: bool, x: Complaint) {
    || (x.RedirectInvalid? && exists i :: 0 <= i < |redirect| && !rules.absolute(redirect[i]))
    || (x.RedirectMissing? && redirect == [])
    || (x.SecretMissing? && !publicClient && secret == "")
    || (x.SecretForbidden? && publicClient && secret != "")
  }

  ghost predicate SamlComplaint(rules: Rules, norm: Labels, kind: ProviderType, x: Complaint) {
    || (x.WrongProvider? && !kind.Saml? && Carries(norm, IsSamlKey))
    || (x.BindingInvalid? && Get(norm, "saml.binding") !in {"", "post", "redirect"})
    || (kind.Saml? && x.AcsMissing? && Get(norm, "saml.acs") == "")
    || (kind.Saml? && x.AcsInvalid? && Get(norm, "saml.acs") != "" && !rules.absolute(Get(norm, "saml.acs")))
  }

  /** Every complaint about an enabled container. */
  ghost predicate SectionComplaint(rules: Rules, labels: Labels, norm: Labels, f: Spec, x: Complaint) {
    || SuffixComplaint(norm, x) || IdentityComplaint(norm, x) || HostComplaint(labels, norm, f.provider, x) || AccessComplaint(norm, x)
    || FamilyComplaint(rules, norm, f, x)
  }

  ghost predicate FamilyComplaint(rules: Rules, norm: Labels, f: Spec, x: Complaint) {
    || ForwardComplaint(rules, norm, f.provider, x) || OidcComplaint(norm, f.provider, x)
    || (f.provider.Oidc? && ClientComplaint(rules, f.redirect, f.secretName, f.publicClient, x))
    || SamlComplaint(rules, norm, f.provider, x)
  }

  /** Every complaint there is. */
  ghost predicate Complains(rules: Rules, c: Container, f: Spec, x: Complaint) {
    || (x.Conflict? && !NoConflict(c.labels))
    || (x.Unarmed? && !f.enable && exists k :: k in Merged(c.labels) && k != "enable")
    || (f.enable && SectionComplaint(rules, c.labels, Merged(c.labels), f, x))
  }

  // The sections.

  /** The classification pass over all suffixes, in order. */
  method Classify(norm: Labels) returns (p: Parse, issues: seq<Complaint>)
    ensures fresh(p) && p.Seen(norm)
    ensures forall x :: x in issues <==> SuffixComplaint(norm, x)
  {
    hide Below, Misfit, Ascending, InGrammar, Parse.Seen, IsIndexed;
    p := new Parse();
    issues := [];
    var suffixes := SortedKeys(norm.Keys);
    ghost var done: Labels := map[];
    for i := 0 to |suffixes|
      invariant fresh(p) && p.Seen(done)
      invariant forall s :: s in done <==> s in suffixes[..i]
      invariant forall s | s in done :: done[s] == norm[s]
      invariant forall x :: x in issues <==> SuffixComplaint(done, x)
    {
      assert suffixes[i] in suffixes && suffixes[..i + 1] == suffixes[..i] + [suffixes[i]];
      NewAndAbove(suffixes, i);
      var bad := p.Route(suffixes[i], norm[suffixes[i]], done);
      OneMoreSuffix(done, suffixes[i], norm[suffixes[i]]);
      if bad.Some? {
        issues := issues + [bad.value];
      }
      done := done[suffixes[i] := norm[suffixes[i]]];
    }
    assert suffixes[..|suffixes|] == suffixes;
    assert done == norm;
  }

  lemma OneMoreSuffix(done: Labels, s: string, v: string)
    ensures forall x :: SuffixComplaint(done[s := v], x) <==> SuffixComplaint(done, x) || Misfit(s) == Some(x)
  {
    hide Misfit;
    forall x | Misfit(s) == Some(x) ensures SuffixComplaint(done[s := v], x) {
      assert s in done[s := v];
    }
    forall x | SuffixComplaint(done, x) ensures SuffixComplaint(done[s := v], x) {
      var r :| r in done && Misfit(r) == Some(x);
      assert r in done[s := v];
    }
  }

  lemma NewAndAbove(keys: seq<string>, i: nat)
    requires Ascending(keys) && i < |keys|
    ensures forall r | r in keys[..i] :: Below(r, keys[i]) && r != keys[i]
  {
    forall r | r in keys[..i] ensures Below(r, keys[i]) && r != keys[i] {
      var j :| 0 <= j < i && keys[j] == r;
      BelowIsStrict(r, r, r);
    }
  }

  /** The lists hold the labels of their families, and the single values are the merged ones. */
  lemma ParseMeans(p: Parse, norm: Labels)
    requires p.Seen(norm)
    ensures (p.forwardKeys != [] <==> Carries(norm, IsForwardKey)) && (p.traefikKeys != [] <==> Carries(norm, IsTraefikKey))
    ensures (p.oidcKeys != [] <==> Carries(norm, IsOidcKey)) && (p.samlKeys != [] <==> Carries(norm, IsSamlKey))
    ensures IsIndexed(norm, PUBLIC, p.publicIdx) && IsIndexed(norm, REDIRECT, p.redirectIdx)
    ensures Get(p.single, "outpost") == Get(norm, "outpost")
    ensures Get(p.single, "forwardauth.public") == Get(norm, "forwardauth.public")
    ensures Get(p.single, "traefik.routers") == Get(norm, "traefik.routers")
    ensures Get(p.single, "oidc.redirect") == Get(norm, "oidc.redirect")
    ensures Get(p.single, "oidc.secret") == Get(norm, "oidc.secret") && Get(p.single, "oidc.id") == Get(norm, "oidc.id")
    ensures Get(p.single, "oidc.client") == Get(norm, "oidc.client") && Get(p.single, "oidc.scopes") == Get(norm, "oidc.scopes")
    ensures Get(p.single, "saml.acs") == Get(norm, "saml.acs") && Get(p.single, "saml.binding") == Get(norm, "saml.binding")
    ensures Get(p.single, "saml.mappings") == Get(norm, "saml.mappings") && Get(p.single, "saml.audience") == Get(norm, "saml.audience")
    ensures Get(p.single, "saml.issuer") == Get(norm, "saml.issuer")
  {
    hide IsIndexed, IsForwardKey, IsTraefikKey, IsOidcKey, IsSamlKey;
    NoMembers(p.forwardKeys);
    NoMembers(p.traefikKeys);
    NoMembers(p.oidcKeys);
    NoMembers(p.samlKeys);
  }

  method FindHost(labels: Labels, norm: Labels, kind: ProviderType) returns (host: string, issues: seq<Complaint>)
    ensures forall x :: x in issues <==> HostComplaint(labels, norm, kind, x)
    ensures HostFits(labels, norm, kind, host) || (host == "" && exists x :: HostComplaint(labels, norm, kind, x))
  {
    hide Infers, Uninferred;
    host, issues := "", [];
    if kind.Saml? {
      return;
    }
    if "host" in norm {
      if IsBareHost(norm["host"]) {
        host := norm["host"];
      } else {
        issues := [HostInvalid];
        assert HostComplaint(labels, norm, kind, HostInvalid);
      }
      return;
    }
    var r := InferHost(labels);
    match r
    case Host(h) => host := h;
    case NoHost(why) =>
      issues := [why];
      assert HostComplaint(labels, norm, kind, why);
  }

  method ParseIdentity(norm: Labels, name: string) returns (slug: string, provider: ProviderType, issues: seq<Complaint>)
    ensures slug == (if "slug" in norm then norm["slug"] else Derived(name))
    ensures provider == (if ProviderNamed(Get(norm, "provider")).Some? then ProviderNamed(Get(norm, "provider")).value else ForwardAuth)
    ensures forall x :: x in issues <==> IdentityComplaint(norm, x)
  {
    hide Derived, IsValidSlug, ProviderNamed;
    issues, provider := [], ForwardAuth;
    if "slug" in norm {
      slug := norm["slug"];
      if !IsValidSlug(slug) {
        issues := issues + [SlugInvalid];
      }
    } else {
      slug := SanitizeSlug(name);
    }
    if ProviderNamed(Get(norm, "provider")).Some? {
      provider := ProviderNamed(Get(norm, "provider")).value;
    } else {
      issues := issues + [ProviderInvalid];
    }
  }

  method ParseAccess(norm: Labels) returns (groups: seq<string>, groupsClaim: bool, requireAll: bool, issues: seq<Complaint>)
    ensures forall x :: x in issues <==> AccessComplaint(norm, x)
    ensures groups == (if Get(norm, "groups") == "none" then [] else Fields(Get(norm, "groups")))
    ensures (groupsClaim <==> Get(norm, "groups.claim") != "false") && (requireAll <==> Get(norm, "require") == "all")
  {
    hide Fields;
    groups, groupsClaim, requireAll, issues := [], true, false, [];
    if "groups" in norm && norm["groups"] != "none" {
      groups := SplitCSV(norm["groups"]);
    }
    NothingInNothing();
    if "groups.claim" in norm {
      if norm["groups.claim"] == "false" {
        groupsClaim := false;
      } else if norm["groups.claim"] != "true" {
        issues := issues + [GroupsClaimInvalid];
      }
    }
    match Get(norm, "require")
    case "" =>
    case "any" =>
    case "all" => requireAll := true;
    case _ => issues := issues + [RequireInvalid];
  }

  method ParseForwardAuth(p: Parse, rules: Rules, ghost norm: Labels, kind: ProviderType)
    returns (public: seq<string>, routers: seq<string>, issues: seq<Complaint>)
    requires p.Seen(norm)
    ensures IsList(norm, "forwardauth.public", PUBLIC, public) && routers == Fields(Get(norm, "traefik.routers"))
    ensures forall x :: x in issues <==> ForwardComplaint(rules, norm, kind, x)
  {
    hide IsList, BothForms, Fields, IsIndexed, Parse.Seen, Get, Carries;
    ParseMeans(p, norm);
    issues := [];
    if !kind.ForwardAuth? && p.forwardKeys != [] {
      issues := issues + [WrongProvider];
    }
    if !rules.traefik && p.traefikKeys != [] {
      issues := issues + [ProxyNoneTraefik];
    }
    var bad;
    public, bad := ResolveList(norm, Get(p.single, "forwardauth.public"), "forwardauth.public", p.publicIdx, PUBLIC);
    if bad {
      issues := issues + [IndexedConflict];
    }
    routers := SplitCSV(Get(p.single, "traefik.routers"));
  }

  method ParseOidc(p: Parse, ghost norm: Labels, kind: ProviderType) returns (publicClient: bool, redirect: seq<string>, issues: seq<Complaint>)
    requires p.Seen(norm)
    ensures IsList(norm, "oidc.redirect", REDIRECT, redirect) && (publicClient <==> Get(norm, "oidc.client") == "public")
    ensures forall x :: x in issues <==> OidcComplaint(norm, kind, x)
  {
    hide IsList, BothForms, Fields, IsIndexed, Parse.Seen, Get, Carries;
    ParseMeans(p, norm);
    issues := [];
    if !kind.Oidc? && p.oidcKeys != [] {
      issues := issues + [WrongProvider];
    }
    var client := Get(p.single, "oidc.client");
    publicClient := client == "public";
    if client !in {"", "confidential", "public"} {
      issues := issues + [ClientInvalid];
    }
    var bad;
    redirect, bad := ResolveList(norm, Get(p.single, "oidc.redirect"), "oidc.redirect", p.redirectIdx, REDIRECT);
    if bad {
      issues := issues + [IndexedConflict];
    }
  }

  /** The rules that only make sense for an OIDC provider. */
  method CheckClient(rules: Rules, redirect: seq<string>, secret: string, publicClient: bool) returns (issues: seq<Complaint>)
    ensures forall x :: x in issues <==> ClientComplaint(rules, redirect, secret, publicClient, x)
  {
    issues := [];
    for i := 0 to |redirect|
      invariant forall x :: x in issues <==> x.RedirectInvalid? && exists j :: 0 <= j < i && !rules.absolute(redirect[j])
    {
      if !rules.absolute(redirect[i]) {
        issues := issues + [RedirectInvalid];
      }
    }
    if redirect == [] {
      issues := issues + [RedirectMissing];
    }
    if !publicClient && secret == "" {
      issues := issues + [Complaint.SecretMissing];
    } else if publicClient && secret != "" {
      issues := issues + [SecretForbidden];
    }
  }

  method ParseSaml(p: Parse, rules: Rules, ghost norm: Labels, kind: ProviderType)
    returns (postBinding: bool, mappings: seq<string>, issues: seq<Complaint>)
    requires p.Seen(norm)
    ensures (postBinding <==> Get(norm, "saml.binding") != "redirect") && mappings == Fields(Get(norm, "saml.mappings"))
    ensures forall x :: x in issues <==> SamlComplaint(rules, norm, kind, x)
  {
    hide Fields, IsIndexed, Parse.Seen, Get, Carries;
    ParseMeans(p, norm);
    issues := [];
    if !kind.Saml? && p.samlKeys != [] {
      issues := issues + [WrongProvider];
    }
    mappings := SplitCSV(Get(p.single, "saml.mappings"));
    var binding := Get(p.single, "saml.binding");
    postBinding := binding != "redirect";
    if binding !in {"", "post", "redirect"} {
      issues := issues + [BindingInvalid];
    }
    if !kind.Saml? {
      return;
    }
    var acs := Get(p.single, "saml.acs");
    if acs == "" {
      issues := issues + [AcsMissing];
    } else if !rules.absolute(acs) {
      issues := issues + [AcsInvalid];
    }
  }

  /** The labels of the three types of provider, whichever of them it is. */
  method ParseFamilies(p: Parse, rules: Rules, ghost norm: Labels, g: Spec) returns (f: Spec, issues: seq<Complaint>)
    requires p.Seen(norm)
    ensures f == g.(publicPaths := f.publicPaths, routers := f.routers, publicClient := f.publicClient, redirect := f.redirect,
                    secretName := f.secretName, postBinding := f.postBinding, samlMappings := f.samlMappings)
    ensures FamiliesMean(norm, f)
    ensures forall x :: x in issues <==> FamilyComplaint(rules, norm, f, x)
  {
    hide ForwardComplaint, OidcComplaint, ClientComplaint, SamlComplaint, IsList, Fields, Get, Parse.Seen, IsIndexed, Carries;
    var public, routers, forward := ParseForwardAuth(p, rules, norm, g.provider);
    var publicClient, redirect, oidc := ParseOidc(p, norm, g.provider);
    var postBinding, mappings, saml := ParseSaml(p, rules, norm, g.provider);
    ParseMeans(p, norm);
    var client := [];
    if g.provider.Oidc? {
      client := CheckClient(rules, redirect, Get(p.single, "oidc.secret"), publicClient);
    }
    issues := forward + oidc + client + saml;
    f := g.(publicPaths := public, routers := routers, publicClient := publicClient, redirect := redirect,
            secretName := Get(p.single, "oidc.secret"), postBinding := postBinding, samlMappings := mappings);
  }

  /** An enabled container: every section in turn. */
  method ParseSections(rules: Rules, c: Container, norm: Labels) returns (f: Spec, issues: seq<Complaint>)
    ensures f.enable && Means(c, norm, f)
    ensures forall x :: x in issues <==> SectionComplaint(rules, c.labels, norm, f, x)
  {
    hide SuffixComplaint, IdentityComplaint, HostComplaint, AccessComplaint, FamilyComplaint, FamiliesMean, Copied;
    hide IsList, Fields, HostFits, Get, ServiceName, Derived, ProviderNamed, Parse.Seen, IsIndexed, Carries, Means;
    var p, unfit := Classify(norm);
    var name := ServiceName(c, norm);
    var slug, provider, identity := ParseIdentity(norm, name);
    var host, unhosted := FindHost(c.labels, norm, provider);
    var groups, groupsClaim, requireAll, access := ParseAccess(norm);
    f := NOTHING.(enable := true, name := name, slug := slug, provider := provider, host := host, groups := groups, groupsClaim := groupsClaim,
                  requireAll := requireAll);
    f := CopyVerbatim(p, norm, f);
    ghost var copied := f;
    var families;
    f, families := ParseFamilies(p, rules, norm, f);
    StillCopied(norm, copied, f);
    issues := unfit + identity + unhosted + access + families;
    MeansAll(c, norm, f);
  }

  lemma StillCopied(norm: Labels, g: Spec, f: Spec)
    requires f == g.(publicPaths := f.publicPaths, routers := f.routers, publicClient := f.publicClient, redirect := f.redirect,
                     secretName := f.secretName, postBinding := f.postBinding, samlMappings := f.samlMappings)
    ensures Copied(norm, f) <==> Copied(norm, g)
  {
    hide Get, Fields;
  }

  /** The fields that are what the label says. */
  method CopyVerbatim(p: Parse, norm: Labels, g: Spec) returns (f: Spec)
    requires p.Seen(norm)
    ensures f == g.(title := f.title, flow := f.flow, adopt := f.adopt, groupsSet := f.groupsSet, policies := f.policies, outpost := f.outpost,
                    launchSet := f.launchSet, launchNone := f.launchNone, launch := f.launch, descriptionSet := f.descriptionSet,
                    description := f.description, iconSet := f.iconSet, icon := f.icon, clientId := f.clientId, scopes := f.scopes,
                    acs := f.acs, audience := f.audience, issuer := f.issuer)
    ensures Copied(norm, f)
  {
    hide Fields, Parse.Seen, Get, IsIndexed, Carries;
    ParseMeans(p, norm);
    var policies := SplitCSV(Get(norm, "policies"));
    var scopes := SplitCSV(Get(p.single, "oidc.scopes"));
    var launchNone := Get(norm, "launch") == "none";
    f := g.(title := FirstNonEmpty(Get(norm, "title"), g.name), flow := Get(norm, "flow"), adopt := Get(norm, "adopt") == "true",
            groupsSet := "groups" in norm, policies := policies, outpost := Get(p.single, "outpost"),
            launchSet := "launch" in norm, launchNone := launchNone, launch := if launchNone then "" else Get(norm, "launch"),
            descriptionSet := "description" in norm, description := Get(norm, "description"),
            iconSet := "icon" in norm, icon := Get(norm, "icon"),
            clientId := FirstNonEmpty(Get(p.single, "oidc.id"), g.slug), scopes := scopes,
            acs := Get(p.single, "saml.acs"), audience := Get(p.single, "saml.audience"), issuer := Get(p.single, "saml.issuer"));
  }

  lemma MeansAll(c: Container, norm: Labels, f: Spec)
    requires f.name == ServiceName(c, norm) && f.slug == (if "slug" in norm then norm["slug"] else Derived(f.name))
    requires f.provider == (if ProviderNamed(Get(norm, "provider")).Some? then ProviderNamed(Get(norm, "provider")).value else ForwardAuth)
    requires HostFits(c.labels, norm, f.provider, f.host) || (f.host == "" && exists x :: HostComplaint(c.labels, norm, f.provider, x))
    requires f.groups == (if Get(norm, "groups") == "none" then [] else Fields(Get(norm, "groups")))
    requires (f.groupsClaim <==> Get(norm, "groups.claim") != "false") && (f.requireAll <==> Get(norm, "require") == "all")
    requires FamiliesMean(norm, f)
    requires Copied(norm, f)
    ensures Means(c, norm, f)
  {
  }

  // The whole of it.

  /** The desired state a container's labels ask for, and every complaint about them. It is to be
      acted on exactly when it is enabled and nothing but the warning is reported. */
  method Discover(rules: Rules, c: Container) returns (f: Spec, issues: seq<Complaint>)
    ensures f.enable <==> Get(Merged(c.labels), "enable") == "true"
    ensures f.name == ServiceName(c, Merged(c.labels))
    ensures if f.enable then Means(c, Merged(c.labels), f) else f == NOTHING.(name := f.name)
    ensures f.enable ==> AsWritten(c, Merged(c.labels), f) && ForeignAsWritten(rules, Merged(c.labels), f, issues)
    ensures forall x :: x in issues <==> Complains(rules, c, f, x)
    ensures f.enable ==> (HasError(issues) <==> !Accepted(rules, c.labels, Merged(c.labels), f))
    ensures f.enable && !HasError(issues) ==> Sound(rules, Merged(c.labels), f)
    ensures !f.enable ==> (HasError(issues) <==> !NoConflict(c.labels))
  {
    hide Merged, Conflicted, SectionComplaint, Accepted, ServiceName, Get, Means, Sound, AsWritten, ForeignAsWritten;
    var norm, conflicts := MergeNamespaces(c.labels);
    issues := seq(|conflicts|, _ => Conflict);
    assert issues == [] <==> NoConflict(c.labels) by { NoMembers(conflicts); }
    assert forall x :: x in issues <==> x.Conflict? && !NoConflict(c.labels) by { NoMembers(issues); }
    f := NOTHING.(name := ServiceName(c, norm));
    if Get(norm, "enable") == "true" {
      var more;
      f, more := ParseSections(rules, c, norm);
      issues := issues + more;
      MeansAsWritten(c, norm, f);
      NoComplaintIsAcceptance(rules, c, norm, f);
      ErrorsFound(rules, c, f, issues);
      ForeignWritten(rules, c, f, issues);
      if Accepted(rules, c.labels, norm, f) {
        AcceptedIsSound(rules, c, f);
      }
      return;
    }
    if exists k :: k in norm && k != "enable" {
      issues := issues + [Unarmed];
    }
    assert !NoConflict(c.labels) ==> Conflict in issues;
  }

  lemma ErrorsFound(rules: Rules, c: Container, f: Spec, issues: seq<Complaint>)
    requires f.enable && forall x :: x in issues <==> Complains(rules, c, f, x)
    requires !SectionComplaint(rules, c.labels, Merged(c.labels), f, Unarmed)
    ensures HasError(issues) <==> !NoConflict(c.labels) || exists x :: SectionComplaint(rules, c.labels, Merged(c.labels), f, x)
  {
    hide SectionComplaint, Merged, NoConflict;
    assert !NoConflict(c.labels) ==> Conflict in issues;
    if x :| SectionComplaint(rules, c.labels, Merged(c.labels), f, x) {
      assert x in issues && x != Unarmed;
    }
    if x :| x in issues && x != Unarmed {
      assert Complains(rules, c, f, x);
    }
  }

  lemma SuffixesFit(norm: Labels)
    ensures (forall s | s in norm :: InGrammar(s)) <==> forall x :: !SuffixComplaint(norm, x)
  {
    hide InGrammar, IsReserved;
    if s :| s in norm && !InGrammar(s) {
      assert SuffixComplaint(norm, Misfit(s).value);
    }
  }

  lemma HostFitsOrComplains(labels: Labels, norm: Labels, kind: ProviderType, host: string)
    ensures HostFits(labels, norm, kind, host) ==> forall x :: !HostComplaint(labels, norm, kind, x)
  {
  }

  lemma FamiliesFit(rules: Rules, norm: Labels, kind: ProviderType)
    ensures RightFamily(rules, norm, kind) <==>
              && (kind.ForwardAuth? || !Carries(norm, IsForwardKey)) && (kind.Oidc? || !Carries(norm, IsOidcKey))
              && (kind.Saml? || !Carries(norm, IsSamlKey)) && (rules.traefik || !Carries(norm, IsTraefikKey))
  {
    hide IsForwardKey, IsOidcKey, IsSamlKey, IsTraefikKey;
    if !RightFamily(rules, norm, kind) {
      var s :| s in norm && !((IsForwardKey(s) ==> kind.ForwardAuth?) && (IsOidcKey(s) ==> kind.Oidc?) && (IsSamlKey(s) ==> kind.Saml?)
                              && (IsTraefikKey(s) ==> rules.traefik));
      assert IsForwardKey(s) ==> Carries(norm, IsForwardKey);
      assert IsOidcKey(s) ==> Carries(norm, IsOidcKey);
      assert IsSamlKey(s) ==> Carries(norm, IsSamlKey);
      assert IsTraefikKey(s) ==> Carries(norm, IsTraefikKey);
    }
  }

  lemma ClientFits(rules: Rules, f: Spec)
    ensures OidcFits(rules, f) <==>
              (f.provider.Oidc? ==> forall x :: !ClientComplaint(rules, f.redirect, f.secretName, f.publicClient, x))
  {
    if f.provider.Oidc? && !OidcFits(rules, f) {
      assert f.redirect == [] ==> ClientComplaint(rules, f.redirect, f.secretName, f.publicClient, RedirectMissing);
      assert (exists i :: 0 <= i < |f.redirect| && !rules.absolute(f.redirect[i])) ==>
          ClientComplaint(rules, f.redirect, f.secretName, f.publicClient, RedirectInvalid);
      assert !f.publicClient && f.secretName == "" ==>
          ClientComplaint(rules, f.redirect, f.secretName, f.publicClient, Complaint.SecretMissing);
      assert f.publicClient && f.secretName != "" ==> ClientComplaint(rules, f.redirect, f.secretName, f.publicClient, SecretForbidden);
    }
  }

  lemma IdentityFits(norm: Labels)
    ensures ("slug" in norm ==> IsValidSlug(norm["slug"])) && ProviderNamed(Get(norm, "provider")).Some? <==>
              forall x :: !IdentityComplaint(norm, x)
  {
    hide IsValidSlug, ProviderNamed, Get;
    assert "slug" in norm && !IsValidSlug(norm["slug"]) ==> IdentityComplaint(norm, SlugInvalid);
    assert ProviderNamed(Get(norm, "provider")).None? ==> IdentityComplaint(norm, ProviderInvalid);
  }

  lemma AccessFits(norm: Labels)
    ensures AccessOk(norm) <==> forall x :: !AccessComplaint(norm, x)
  {
    hide Get;
    assert Get(norm, "require") !in {"", "any", "all"} ==> AccessComplaint(norm, RequireInvalid);
    assert "groups.claim" in norm && norm["groups.claim"] !in {"true", "false"} ==> AccessComplaint(norm, GroupsClaimInvalid);
  }

  lemma ForwardFits(rules: Rules, norm: Labels, kind: ProviderType)
    ensures (kind.ForwardAuth? || !Carries(norm, IsForwardKey)) && (rules.traefik || !Carries(norm, IsTraefikKey))
              && !BothForms(norm, "forwardauth.public", PUBLIC)
            <==> forall x :: !ForwardComplaint(rules, norm, kind, x)
  {
    hide Carries, BothForms;
    assert !kind.ForwardAuth? && Carries(norm, IsForwardKey) ==> ForwardComplaint(rules, norm, kind, WrongProvider);
    assert !rules.traefik && Carries(norm, IsTraefikKey) ==> ForwardComplaint(rules, norm, kind, ProxyNoneTraefik);
    assert BothForms(norm, "forwardauth.public", PUBLIC) ==> ForwardComplaint(rules, norm, kind, IndexedConflict);
  }

  lemma OidcLabelsFit(norm: Labels, kind: ProviderType)
    ensures (kind.Oidc? || !Carries(norm, IsOidcKey)) && Get(norm, "oidc.client") in {"", "confidential", "public"}
              && !BothForms(norm, "oidc.redirect", REDIRECT)
            <==> forall x :: !OidcComplaint(norm, kind, x)
  {
    hide Carries, BothForms, Get;
    assert !kind.Oidc? && Carries(norm, IsOidcKey) ==> OidcComplaint(norm, kind, WrongProvider);
    assert Get(norm, "oidc.client") !in {"", "confidential", "public"} ==> OidcComplaint(norm, kind, ClientInvalid);
    assert BothForms(norm, "oidc.redirect", REDIRECT) ==> OidcComplaint(norm, kind, IndexedConflict);
  }

  lemma SamlLabelsFit(rules: Rules, norm: Labels, f: Spec)
    requires f.acs == Get(norm, "saml.acs")
    ensures (f.provider.Saml? || !Carries(norm, IsSamlKey)) && Get(norm, "saml.binding") in {"", "post", "redirect"} && SamlFits(rules, f)
            <==> forall x :: !SamlComplaint(rules, norm, f.provider, x)
  {
    hide Carries, Get;
    assert !f.provider.Saml? && Carries(norm, IsSamlKey) ==> SamlComplaint(rules, norm, f.provider, WrongProvider);
    assert Get(norm, "saml.binding") !in {"", "post", "redirect"} ==> SamlComplaint(rules, norm, f.provider, BindingInvalid);
    assert f.provider.Saml? && f.acs == "" ==> SamlComplaint(rules, norm, f.provider, AcsMissing);
    assert f.provider.Saml? && f.acs != "" && !rules.absolute(f.acs) ==> SamlComplaint(rules, norm, f.provider, AcsInvalid);
  }

  lemma WarningIsNoSection(rules: Rules, labels: Labels, norm: Labels, f: Spec)
    ensures !SectionComplaint(rules, labels, norm, f, Unarmed) && !SectionComplaint(rules, labels, norm, f, Conflict)
  {
    hide IsValidSlug, ProviderNamed, IsBareHost, HasPattern, Candidates, BothForms, Carries, Get, InGrammar, IsReserved;
  }

  lemma SectionsAreApart(rules: Rules, labels: Labels, norm: Labels, f: Spec)
    ensures (forall x :: !SectionComplaint(rules, labels, norm, f, x)) <==>
              && (forall x :: !SuffixComplaint(norm, x)) && (forall x :: !IdentityComplaint(norm, x))
              && (forall x :: !HostComplaint(labels, norm, f.provider, x)) && (forall x :: !AccessComplaint(norm, x))
              && (forall x :: !ForwardComplaint(rules, norm, f.provider, x)) && (forall x :: !OidcComplaint(norm, f.provider, x))
              && (f.provider.Oidc? ==> forall x :: !ClientComplaint(rules, f.redirect, f.secretName, f.publicClient, x))
              && (forall x :: !SamlComplaint(rules, norm, f.provider, x))
  {
    hide SuffixComplaint, IdentityComplaint, HostComplaint, AccessComplaint, ForwardComplaint, OidcComplaint, ClientComplaint, SamlComplaint;
    if forall x :: !SectionComplaint(rules, labels, norm, f, x) {
      forall x
        ensures !SuffixComplaint(norm, x) && !IdentityComplaint(norm, x) && !HostComplaint(labels, norm, f.provider, x) && !AccessComplaint(norm, x)
        ensures !ForwardComplaint(rules, norm, f.provider, x) && !OidcComplaint(norm, f.provider, x) && !SamlComplaint(rules, norm, f.provider, x)
        ensures f.provider.Oidc? ==> !ClientComplaint(rules, f.redirect, f.secretName, f.publicClient, x)
      {
        assert !SectionComplaint(rules, labels, norm, f, x);
      }
    }
  }

  /** Nothing to complain about is the same as everything accepted. */
  lemma NoComplaintIsAcceptance(rules: Rules, c: Container, norm: Labels, f: Spec)
    requires Means(c, norm, f)
    ensures f.name == ServiceName(c, norm)
    ensures Accepted(rules, c.labels, norm, f) <==> NoConflict(c.labels) && forall x :: !SectionComplaint(rules, c.labels, norm, f, x)
    ensures !SectionComplaint(rules, c.labels, norm, f, Unarmed) && !SectionComplaint(rules, c.labels, norm, f, Conflict)
  {
    hide SuffixComplaint, IdentityComplaint, HostComplaint, AccessComplaint, ForwardComplaint, OidcComplaint, ClientComplaint, SamlComplaint;
    hide HostFits, OidcFits, SamlFits, RightFamily, InGrammar, NoConflict, AccessOk, BothForms, Carries, Get, IsValidSlug, ProviderNamed;
    hide SectionComplaint;
    WarningIsNoSection(rules, c.labels, norm, f);
    SectionsAreApart(rules, c.labels, norm, f);
    SuffixesFit(norm);
    IdentityFits(norm);
    HostFitsOrComplains(c.labels, norm, f.provider, f.host);
    AccessFits(norm);
    FamiliesFit(rules, norm, f.provider);
    ForwardFits(rules, norm, f.provider);
    OidcLabelsFit(norm, f.provider);
    ClientFits(rules, f);
    SamlLabelsFit(rules, norm, f);
  }

  // Lists as they are written.

  /** Every field of the Spec is what its label was written as; a list is a comma list, or for the two
      indexed families one label for each entry. */
  ghost predicate AsWritten(c: Container, norm: Labels, f: Spec) {
    IdentityAsWritten(c, norm, f) && ValuesAsWritten(norm, f) && ListsAsWritten(norm, f)
  }

  ghost predicate ListsAsWritten(norm: Labels, f: Spec) {
    PlainListsAsWritten(norm, f) && PathsAsWritten(norm, f.publicPaths) && RedirectsAsWritten(norm, f.redirect)
  }

  /** The label says this, or it is not there and the value is empty. */
  ghost predicate Says(norm: Labels, suffix: string, v: string) {
    if suffix in norm then v == norm[suffix] else v == ""
  }

  ghost predicate SaysNothing(labels: Labels, key: string) {
    key in labels ==> labels[key] == ""
  }

  /** Name, slug, title and type: the label where it says something, and what stands in for it where it does not. */
  ghost predicate IdentityAsWritten(c: Container, norm: Labels, f: Spec) {
    && (!SaysNothing(norm, "name") ==> f.name == norm["name"])
    && (SaysNothing(norm, "name") && !SaysNothing(c.labels, "com.docker.compose.service") ==> f.name == c.labels["com.docker.compose.service"])
    && (SaysNothing(norm, "name") && SaysNothing(c.labels, "com.docker.compose.service") ==>
          c.name == "/" + f.name || (c.name == f.name && (c.name == "" || c.name[0] != '/')))
    && (if "slug" in norm then f.slug == norm["slug"] else f.slug == Derived(f.name))
    && (if SaysNothing(norm, "title") then f.title == f.name else f.title == norm["title"])
    && (f.provider.Oidc? <==> "provider" in norm && norm["provider"] == "oidc")
    && (f.provider.Saml? <==> "provider" in norm && norm["provider"] == "saml")
    && !f.provider.Unrecognised?
  }

  /** The fields that only repeat or test their label. */
  ghost predicate ValuesAsWritten(norm: Labels, f: Spec) {
    && Says(norm, "flow", f.flow) && Says(norm, "outpost", f.outpost) && Says(norm, "description", f.description) && Says(norm, "icon", f.icon)
    && Says(norm, "oidc.secret", f.secretName) && Says(norm, "saml.acs", f.acs) && Says(norm, "saml.audience", f.audience)
    && Says(norm, "saml.issuer", f.issuer) && (f.launchNone || Says(norm, "launch", f.launch))
    && (if SaysNothing(norm, "oidc.id") then f.clientId == f.slug else f.clientId == norm["oidc.id"])
    && (f.adopt <==> "adopt" in norm && norm["adopt"] == "true") && (f.requireAll <==> "require" in norm && norm["require"] == "all")
    && (f.groupsClaim <==> !("groups.claim" in norm && norm["groups.claim"] == "false"))
    && (f.publicClient <==> "oidc.client" in norm && norm["oidc.client"] == "public")
    && (f.postBinding <==> !("saml.binding" in norm && norm["saml.binding"] == "redirect"))
    && (f.launchNone <==> "launch" in norm && norm["launch"] == "none")
    && (f.groupsSet <==> "groups" in norm) && (f.launchSet <==> "launch" in norm) && (f.descriptionSet <==> "description" in norm)
    && (f.iconSet <==> "icon" in norm)
  }

  lemma IdentityWritten(c: Container, norm: Labels, f: Spec)
    requires Means(c, norm, f)
    ensures IdentityAsWritten(c, norm, f)
  {
    hide IsList, HostFits, HostComplaint, Fields, Derived, FamiliesMean, Infers;
    assert "/" <= c.name ==> c.name == "/" + c.name[1..];
    assert !("/" <= c.name) ==> c.name == "" || c.name[0] != '/';
  }

  lemma ValuesWritten(c: Container, norm: Labels, f: Spec)
    requires Means(c, norm, f)
    ensures ValuesAsWritten(norm, f)
  {
    hide IsList, HostFits, HostComplaint, Fields, Derived, ServiceName, ProviderNamed, Infers;
  }

  ghost predicate PlainListsAsWritten(norm: Labels, f: Spec) {
    && (forall names | CommaList(norm, "groups", names) && norm["groups"] != "none" :: f.groups == names)
    && (Get(norm, "groups") == "none" ==> f.groups == [])
    && (forall names | CommaList(norm, "policies", names) :: f.policies == names)
    && (forall names | CommaList(norm, "traefik.routers", names) :: f.routers == names)
    && (forall names | CommaList(norm, "oidc.scopes", names) :: f.scopes == names)
    && (forall names | CommaList(norm, "saml.mappings", names) :: f.samlMappings == names)
  }

  ghost predicate PathsAsWritten(norm: Labels, paths: seq<string>) {
    && (forall names | CommaList(norm, "forwardauth.public", names) && Unnumbered(norm, PUBLIC) :: paths == names)
    && (Get(norm, "forwardauth.public") == "" ==>
          forall values | values != [] && |values| <= MAX64 && Numbered(norm, PUBLIC, values) :: paths == values)
  }

  ghost predicate RedirectsAsWritten(norm: Labels, redirect: seq<string>) {
    && (forall names | CommaList(norm, "oidc.redirect", names) && Unnumbered(norm, REDIRECT) :: redirect == names)
    && (Get(norm, "oidc.redirect") == "" ==>
          forall values | values != [] && |values| <= MAX64 && Numbered(norm, REDIRECT, values) :: redirect == values)
  }

  ghost predicate Unnumbered(norm: Labels, base: string) {
    forall s | s in norm :: !(base <= s)
  }

  lemma CommaListOfFamily(norm: Labels, csv: string, base: string, names: seq<string>, list: seq<string>)
    requires CommaList(norm, csv, names) && Unnumbered(norm, base) && IsList(norm, csv, base, list)
    ensures list == names
  {
    CommaListIsRead(norm, csv, names);
    hide CommaList, Fields;
  }

  /** What is discovered is what was written. */
  lemma MeansAsWritten(c: Container, norm: Labels, f: Spec)
    requires Means(c, norm, f)
    ensures AsWritten(c, norm, f)
  {
    hide IdentityAsWritten, ValuesAsWritten;
    IdentityWritten(c, norm, f);
    ValuesWritten(c, norm, f);
    hide IsList, HostFits, HostComplaint, Fields, ServiceName, Derived, ProviderNamed, BothForms, Infers, PlainListsAsWritten, PathsAsWritten,
         RedirectsAsWritten, Copied;
    PlainAsWritten(c, norm, f);
    PathsWritten(norm, f.publicPaths);
    RedirectsWritten(norm, f.redirect);
  }

  lemma PlainAsWritten(c: Container, norm: Labels, f: Spec)
    requires Means(c, norm, f)
    ensures PlainListsAsWritten(norm, f)
  {
    hide IsList, HostFits, HostComplaint, Fields, ServiceName, Derived, ProviderNamed, BothForms, Infers, CommaList, Get;
    forall suffix, names | CommaList(norm, suffix, names) ensures suffix in norm && Get(norm, suffix) == norm[suffix] && Fields(norm[suffix]) == names {
      CommaListIsRead(norm, suffix, names);
      IsThere(norm, suffix, names);
    }
  }

  lemma PathsWritten(norm: Labels, paths: seq<string>)
    requires IsList(norm, "forwardauth.public", PUBLIC, paths)
    ensures PathsAsWritten(norm, paths)
  {
    hide IsList, CommaList, Unnumbered, Numbered, Get;
    forall names | CommaList(norm, "forwardauth.public", names) && Unnumbered(norm, PUBLIC) ensures paths == names {
      CommaListOfFamily(norm, "forwardauth.public", PUBLIC, names, paths);
    }
    forall values | Get(norm, "forwardauth.public") == "" && values != [] && |values| <= MAX64 && Numbered(norm, PUBLIC, values)
      ensures paths == values
    {
      NumberedIsRead(norm, "forwardauth.public", PUBLIC, values, paths);
    }
  }

  lemma RedirectsWritten(norm: Labels, redirect: seq<string>)
    requires IsList(norm, "oidc.redirect", REDIRECT, redirect)
    ensures RedirectsAsWritten(norm, redirect)
  {
    hide IsList, CommaList, Unnumbered, Numbered, Get;
    forall names | CommaList(norm, "oidc.redirect", names) && Unnumbered(norm, REDIRECT) ensures redirect == names {
      CommaListOfFamily(norm, "oidc.redirect", REDIRECT, names, redirect);
    }
    forall values | Get(norm, "oidc.redirect") == "" && values != [] && |values| <= MAX64 && Numbered(norm, REDIRECT, values)
      ensures redirect == values
    {
      NumberedIsRead(norm, "oidc.redirect", REDIRECT, values, redirect);
    }
  }

  lemma IsThere(norm: Labels, suffix: string, names: seq<string>)
    requires CommaList(norm, suffix, names)
    ensures suffix in norm && Get(norm, suffix) == norm[suffix]
  {
  }

  // Foreign labels.

  ghost predicate Begins(s: string, prefix: string) {
    exists rest: string :: s == prefix + rest
  }

  /** A label that only makes sense for another type of provider than the one asked for. */
  ghost predicate ForAnotherType(s: string, kind: ProviderType) {
    || (!kind.ForwardAuth? && (s == "outpost" || s == "forwardauth.public" || s == "traefik.routers" || Begins(s, "forwardauth.public.")))
    || (!kind.Oidc? && Begins(s, "oidc.")) || (!kind.Saml? && (s == "saml" || Begins(s, "saml.")))
  }

  /** Foreign labels are complained about, and no others. */
  ghost predicate ForeignAsWritten(rules: Rules, norm: Labels, f: Spec, issues: seq<Complaint>) {
    && (WrongProvider in issues <==> exists s :: s in norm && ForAnotherType(s, f.provider))
    && (ProxyNoneTraefik in issues <==> !rules.traefik && exists s :: s in norm && Begins(s, "traefik."))
  }

  lemma PrefixBegins(s: string, prefix: string)
    ensures prefix <= s <==> Begins(s, prefix)
  {
    if prefix <= s {
      assert s == prefix + s[|prefix|..];
    }
  }

  lemma ForeignWritten(rules: Rules, c: Container, f: Spec, issues: seq<Complaint>)
    requires f.enable && forall x :: x in issues <==> Complains(rules, c, f, x)
    ensures ForeignAsWritten(rules, Merged(c.labels), f, issues)
  {
    var norm := Merged(c.labels);
    hide Merged, NoConflict, InGrammar, IsReserved, IsValidSlug, ProviderNamed, IsBareHost, Infers, Uninferred, BothForms, Get;
    forall s ensures ForAnotherType(s, f.provider) <==>
                       (!f.provider.ForwardAuth? && IsForwardKey(s)) || (!f.provider.Oidc? && IsOidcKey(s)) || (!f.provider.Saml? && IsSamlKey(s))
    {
      PrefixBegins(s, PUBLIC);
      PrefixBegins(s, "oidc.");
      PrefixBegins(s, "saml.");
    }
    forall s ensures IsTraefikKey(s) <==> Begins(s, "traefik.") {
      PrefixBegins(s, "traefik.");
    }
    hide ForAnotherType, Begins, IsForwardKey, IsOidcKey, IsSamlKey, IsTraefikKey;
    ForeignComplaints(rules, c, f);
    hide Complains;
    if s :| s in norm && ForAnotherType(s, f.provider) {
      assert (IsForwardKey(s) ==> Carries(norm, IsForwardKey)) && (IsOidcKey(s) ==> Carries(norm, IsOidcKey));
      assert IsSamlKey(s) ==> Carries(norm, IsSamlKey);
    }
    if s :| s in norm && Begins(s, "traefik.") {
      assert IsTraefikKey(s) && Carries(norm, IsTraefikKey);
    }
  }

  lemma ForeignComplaints(rules: Rules, c: Container, f: Spec)
    requires f.enable
    ensures Complains(rules, c, f, WrongProvider) <==>
              || (!f.provider.ForwardAuth? && Carries(Merged(c.labels), IsForwardKey))
              || (!f.provider.Oidc? && Carries(Merged(c.labels), IsOidcKey)) || (!f.provider.Saml? && Carries(Merged(c.labels), IsSamlKey))
    ensures Complains(rules, c, f, ProxyNoneTraefik) <==> !rules.traefik && Carries(Merged(c.labels), IsTraefikKey)
  {
    hide Merged, NoConflict, InGrammar, IsReserved, IsValidSlug, ProviderNamed, IsBareHost, Infers, BothForms, Get, Carries;
    hide IsForwardKey, IsOidcKey, IsSamlKey, IsTraefikKey, HasPattern, Candidates;
  }

  // What acceptance means.

  /** A Spec that passed discovery is well formed. */
  ghost predicate Sound(rules: Rules, norm: Labels, f: Spec) {
    && (forall s | s in norm :: InGrammar(s))
    && (!f.provider.ForwardAuth? ==> forall s | s in norm :: !IsForwardKey(s))
    && (!f.provider.Oidc? ==> forall s | s in norm :: !IsOidcKey(s))
    && (!f.provider.Saml? ==> forall s | s in norm :: !IsSamlKey(s))
    && (f.provider.Oidc? ==> f.redirect != [] && (forall i | 0 <= i < |f.redirect| :: rules.absolute(f.redirect[i]))
                             && (f.secretName != "" <==> !f.publicClient))
    && (f.provider.Saml? ==> f.acs != "" && rules.absolute(f.acs))
    && (!f.provider.Saml? ==> f.host != "") && !f.provider.Unrecognised?
    && (if "slug" in norm then IsValidSlug(f.slug) else (f.slug == "" || Canonical(f.slug)) && Derived(f.slug) == f.slug)
  }

  lemma AcceptedIsSound(rules: Rules, c: Container, f: Spec)
    requires Means(c, Merged(c.labels), f) && Accepted(rules, c.labels, Merged(c.labels), f)
    ensures Sound(rules, Merged(c.labels), f)
  {
    hide Merged, IsList, Fields, BothForms, InGrammar, AccessOk;
    DerivedIsCanonical(f.name);
    DerivedIsFixed(f.name);
    InferredIsReal(c.labels, f.host);
    hide Derived, Infers;
  }

  lemma InferredIsReal(labels: Labels, host: string)
    ensures Infers(labels, host) ==> host != "" && '`' !in host
  {
    if Infers(labels, host) {
      assert host in Candidates(labels);
      var k :| k in labels && IsRuleKey(k) && host in HostLiterals(labels[k]);
      LiteralsAreQuotable(labels[k]);
    }
  }

  // Moving labels to the other prefix.

  /** Where the labels are spelled makes no difference: what is discovered, what is complained about
      and whether it is accepted are the same. */
  lemma RespellingSameDiscovery(rules: Rules, name: string, a: Labels, b: Labels, moved: set<string>, f: Spec)
    requires Respelled(a, b, moved)
    ensures Merged(a) == Merged(b)
    ensures Means(Container(name, a), Merged(a), f) <==> Means(Container(name, b), Merged(b), f)
    ensures Accepted(rules, a, Merged(a), f) <==> Accepted(rules, b, Merged(b), f)
    ensures forall x :: Complains(rules, Container(name, a), f, x) <==> Complains(rules, Container(name, b), f, x)
  {
    hide Merged, InGrammar, AccessOk, Derived, Infers, Respelled, RightFamily, Conflicted, OidcFits, SamlFits, IsValidSlug, ProviderNamed;
    hide HostFits, HostComplaint, SuffixComplaint, IdentityComplaint, AccessComplaint, FamilyComplaint, FamiliesMean;
    hide Copied, IsList, BothForms, Fields, Get;
    RespellingChangesNothing(a, b, moved);
    SameService(a, b, moved);
    SameHosts(a, b, moved, Merged(a));
  }

  lemma OneHost(labels: Labels, norm: Labels, kind: ProviderType, a: string, b: string)
    requires HostFits(labels, norm, kind, a) || (a == "" && exists x :: HostComplaint(labels, norm, kind, x))
    requires HostFits(labels, norm, kind, b) || (b == "" && exists x :: HostComplaint(labels, norm, kind, x))
    ensures a == b
  {
    HostFitsOrComplains(labels, norm, kind, a);
    HostFitsOrComplains(labels, norm, kind, b);
    hide HostComplaint, HasPattern;
    if HostFits(labels, norm, kind, a) && HostFits(labels, norm, kind, b) && !kind.Saml? && "host" !in norm {
      assert a in Candidates(labels) && b in {a};
    }
  }

  /** Labels mean one Spec only. */
  lemma OneMeaning(c: Container, norm: Labels, f: Spec, g: Spec)
    requires Means(c, norm, f) && Means(c, norm, g) && f.enable == g.enable
    ensures f == g
  {
    hide IsList, HostFits, HostComplaint, Fields, ServiceName, Derived, ProviderNamed, Get, BothForms, Infers, Means, FamiliesMean, Copied;
    OneHostMeant(c, norm, f, g);
    OneOfEachList(c, norm, f, g);
    OneIdentity(c, norm, f, g);
    OneCopy(c, norm, f, g);
  }

  lemma OneIdentity(c: Container, norm: Labels, f: Spec, g: Spec)
    requires Means(c, norm, f) && Means(c, norm, g)
    ensures f.name == g.name && f.slug == g.slug && f.provider == g.provider && f.groups == g.groups
    ensures f.groupsClaim == g.groupsClaim && f.requireAll == g.requireAll
  {
    hide IsList, HostFits, HostComplaint, Fields, ServiceName, Derived, ProviderNamed, Get, BothForms, Infers, FamiliesMean, Copied;
  }

  lemma OneCopy(c: Container, norm: Labels, f: Spec, g: Spec)
    requires Means(c, norm, f) && Means(c, norm, g)
    ensures f.name == g.name && f.slug == g.slug ==>
              f == g.(enable := f.enable, provider := f.provider, host := f.host, groups := f.groups, groupsClaim := f.groupsClaim,
                      requireAll := f.requireAll, publicPaths := f.publicPaths, redirect := f.redirect)
  {
    hide IsList, HostFits, HostComplaint, Fields, ServiceName, Derived, ProviderNamed, Get, BothForms, Infers;
  }

  lemma OneHostMeant(c: Container, norm: Labels, f: Spec, g: Spec)
    requires Means(c, norm, f) && Means(c, norm, g)
    ensures f.host == g.host
  {
    hide IsList, HostFits, HostComplaint, Fields, ServiceName, Derived, ProviderNamed, Get, BothForms, Infers, Copied;
    OneHost(c.labels, norm, f.provider, f.host, g.host);
  }

  lemma OneOfEachList(c: Container, norm: Labels, f: Spec, g: Spec)
    requires Means(c, norm, f) && Means(c, norm, g)
    ensures f.publicPaths == g.publicPaths && f.redirect == g.redirect
  {
    hide IsList, HostFits, HostComplaint, Fields, ServiceName, Derived, ProviderNamed, Get, BothForms, Infers, Copied;
    OneList(norm, "forwardauth.public", PUBLIC, f.publicPaths, g.publicPaths);
    OneList(norm, "oidc.redirect", REDIRECT, f.redirect, g.redirect);
  }

  /** Discovering both spellings gives the same Spec and the same complaints. */
  method DiscoverBoth(rules: Rules, name: string, a: Labels, b: Labels, ghost moved: set<string>)
    returns (f: Spec, fIssues: seq<Complaint>, g: Spec, gIssues: seq<Complaint>)
    requires Respelled(a, b, moved)
    ensures f == g && forall x :: x in fIssues <==> x in gIssues
    ensures HasError(fIssues) <==> HasError(gIssues)
  {
    hide Merged, Complains, Accepted, Means, Sound, Respelled, ServiceName, Get;
    f, fIssues := Discover(rules, Container(name, a));
    g, gIssues := Discover(rules, Container(name, b));
    RespellingSameDiscovery(rules, name, a, b, moved, f);
    SameName(name, a, b, moved);
    if f.enable {
      RespellingSameDiscovery(rules, name, a, b, moved, g);
      OneMeaning(Container(name, a), Merged(a), f, g);
    }
  }

  lemma SameName(name: string, a: Labels, b: Labels, moved: set<string>)
    requires Respelled(a, b, moved)
    ensures forall norm :: ServiceName(Container(name, a), norm) == ServiceName(Container(name, b), norm)
  {
    SameService(a, b, moved);
    hide Get, Respelled;
  }

  lemma SameService(a: Labels, b: Labels, moved: set<string>)
    requires Respelled(a, b, moved)
    ensures Get(a, COMPOSE_SERVICE) == Get(b, COMPOSE_SERVICE)
  {
    ComposeIsNoLabelOfOurs();
  }

  lemma ComposeIsNoLabelOfOurs()
    ensures StripPrefix(COMPOSE_SERVICE).None?
  {
    assert COMPOSE_SERVICE[0] == 'c' && PRIMARY[0] == 'a' && ALIAS[0] == 't';
  }

  lemma SameHosts(a: Labels, b: Labels, moved: set<string>, norm: Labels)
    requires Respelled(a, b, moved)
    ensures forall kind, host :: HostFits(a, norm, kind, host) <==> HostFits(b, norm, kind, host)
    ensures forall kind, x :: HostComplaint(a, norm, kind, x) <==> HostComplaint(b, norm, kind, x)
  {
    forall k | IsRuleKey(k) ensures (k in a <==> k in b) && (k in a ==> a[k] == b[k]) {
      assert k[0] == 't' && k[1] == 'r' && PRIMARY[0] == 'a' && ALIAS[1] == 'a';
      assert StripPrefix(k).None?;
    }
    hide IsRuleKey, HostLiterals, IsPattern, Respelled, IsBareHost;
    assert Candidates(a) == Candidates(b);
    assert HasPattern(a) == HasPattern(b);
  }

  // One number, two spellings.

  const TWICE: Labels :=
    map["enable" := "true", "provider" := "oidc", "host" := "a", "oidc.client" := "public",
        "oidc.redirect.01" := "https://a/x", "oidc.redirect.1" := "https://a/y"]

  lemma OneDigit(text: string, n: nat)
    requires n < 10 && text in {Digits(n), "0" + Digits(n)}
    ensures ParseIndex(text) == Some(n)
  {
    var d := Digits(n);
    assert |d| == 1 && Decimal(d) == n by { DigitsRead(n); }
    assert d[0] in d;
    if text == "0" + d {
      assert text[..1] == "0" && Decimal("0") == 0 by {
        assert "0"[..0] == "";
      }
      assert forall i | 0 <= i < 2 :: IsDigit(text[i]);
      assert Decimal(text) == n;
    }
  }

  lemma TwiceIsOne()
    ensures IndexUnder(REDIRECT, "oidc.redirect.01") == Some(1) && IndexUnder(REDIRECT, "oidc.redirect.1") == Some(1)
  {
    assert "oidc.redirect.01"[|REDIRECT|..] == "01" && "oidc.redirect.1"[|REDIRECT|..] == "1";
    assert Digits(1) == "1" && "0" + Digits(1) == "01";
    OneDigit("01", 1);
    OneDigit("1", 1);
    hide ParseIndex;
  }

  lemma TwiceIsInGrammar()
    ensures IndexUnder(REDIRECT, "oidc.redirect.01") == Some(1) && IndexUnder(REDIRECT, "oidc.redirect.1") == Some(1)
    ensures forall s | s in TWICE :: InGrammar(s)
    ensures Family(TWICE, REDIRECT) == {"oidc.redirect.01", "oidc.redirect.1"} && Family(TWICE, PUBLIC) == {}
  {
    hide ParseIndex, Digits, Atoi;
    TwiceIsOne();
    forall s | s in {"enable", "provider", "host", "oidc.client"} ensures IndexUnder(REDIRECT, s).None? {
      Prefixes(s);
    }
    forall s | s in TWICE ensures !(PUBLIC <= s) {
      assert PUBLIC[0] == 'f';
    }
  }

  lemma TwiceSays()
    ensures Get(TWICE, "enable") == "true" && ProviderNamed(Get(TWICE, "provider")) == Some(Oidc)
    ensures "host" in TWICE && TWICE["host"] == "a" && IsBareHost("a")
    ensures Get(TWICE, "oidc.client") == "public" && Get(TWICE, "oidc.secret") == "" && Get(TWICE, "saml.binding") == ""
    ensures "slug" !in TWICE && "groups.claim" !in TWICE && Get(TWICE, "require") == ""
    ensures Get(TWICE, "forwardauth.public") == "" && Get(TWICE, "oidc.redirect") == "" && "" !in TWICE
  {
  }

  lemma TwiceFamilies()
    ensures forall s | s in TWICE :: !IsForwardKey(s) && !IsSamlKey(s) && !IsTraefikKey(s)
  {
    forall s | s in TWICE ensures !IsForwardKey(s) && !IsSamlKey(s) && !IsTraefikKey(s) {
      assert s[0] in {'e', 'p', 'h', 'o'} && s != "outpost";
      assert "traefik."[0] == 't' && "saml."[0] == 's' && "saml"[0] == 's' && PUBLIC[0] == 'f';
    }
  }

  /** Labels that spell one number twice are accepted, and one of the two redirects is gone. */
  method RedirectSpelledTwice() returns (f: Spec, issues: seq<Complaint>)
    ensures f.enable && !HasError(issues) && |f.redirect| == 1 && |Family(Merged(Primarily(TWICE)), REDIRECT)| == 2
  {
    hide Merged, Primarily, Means, Accepted, Complains, Sound, ServiceName, HasError, IndexUnder, Family, TWICE, AsWritten, ForeignAsWritten;
    var rules := Rules(true, (url: string) => true);
    var c := Container("c", Primarily(TWICE));
    TwiceSays();
    PrimarilyMerges(TWICE);
    TwiceIsInGrammar();
    f, issues := Discover(rules, c);
    TwiceIsAccepted(rules, c, f);
  }

  lemma TwiceIsAccepted(rules: Rules, c: Container, f: Spec)
    requires c.labels == Primarily(TWICE) && Means(c, TWICE, f) && rules.traefik && forall url :: rules.absolute(url)
    ensures Accepted(rules, c.labels, TWICE, f) && |f.redirect| == 1
  {
    hide TWICE, Primarily, IndexUnder, Derived, ServiceName, InGrammar, Copied, IsForwardKey, IsOidcKey, IsSamlKey, IsTraefikKey, ProviderNamed;
    hide IsBareHost, Conflicted, IsList, Family, NumbersDiffer, Infers, OidcFits, SamlFits, AccessOk, HostComplaint, HostFits;
    TwiceSays();
    TwiceFamilies();
    PrimarilyMerges(TWICE);
    TwiceIsInGrammar();
    TwiceRedirects(f.redirect);
    TwiceFits(rules, c.labels, f);
  }

  lemma TwiceFits(rules: Rules, labels: Labels, f: Spec)
    requires forall url :: rules.absolute(url)
    requires f.provider.Oidc? && |f.redirect| == 1 && f.secretName == Get(TWICE, "oidc.secret") && f.publicClient
    ensures OidcFits(rules, f) && SamlFits(rules, f) && AccessOk(TWICE) && forall x :: !HostComplaint(labels, TWICE, Oidc, x)
  {
    TwiceSays();
    hide TWICE;
  }

  lemma TwiceRedirects(list: seq<string>)
    requires IsList(TWICE, "oidc.redirect", REDIRECT, list)
    ensures |list| == 1
  {
    hide TWICE, IsList, IndexUnder, Family;
    TwiceSays();
    TwiceIsInGrammar();
    OneEntryPerLabel(TWICE, "oidc.redirect", REDIRECT, list);
    TwiceIndexed(list);
  }

  lemma TwiceIndexed(list: seq<string>)
    requires IsList(TWICE, "oidc.redirect", REDIRECT, list)
    ensures |list| >= 1
  {
    hide TWICE, IndexUnder, IsIndexed;
    TwiceSays();
    TwiceIsInGrammar();
    var s := "oidc.redirect.1";
    assert s in Family(TWICE, REDIRECT);
    var idx :| IsIndexed(TWICE, REDIRECT, idx) && InIndexOrder(idx, list);
    IndicesAreNumbers(TWICE, REDIRECT, idx);
    ListCount(idx, list);
    assert 1 in Numbers(REDIRECT, Family(TWICE, REDIRECT)) by { assert IndexUnder(REDIRECT, s) == Some(1); }
  }
}
