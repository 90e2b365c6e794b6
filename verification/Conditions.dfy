/** When a reconcile is refused and when it can succeed, in the words of the labels and of the rows alone. */
module Conditions {
  import opened Options
  import opened Authentik
  import opened Desired
  import opened Rows
  import opened Law
  import opened Reconciler

  ghost predicate IsForm(c: Component, kind: ProviderType) {
    match kind
    case ForwardAuth => c.ProxyForm?
    case Oidc => c.OAuth2Form?
    case Saml => c.SamlForm?
    case Unrecognised => false
  }

  ghost predicate HasRow(t: Tables, slug: string) {
    slug in t.apps && t.apps[slug].provider.Some? && t.apps[slug].provider.value in t.providers
  }

  /** The application points at a provider of the wanted type that bears its own name. */
  ghost predicate OursAlready(t: Tables, s: Spec) {
    HasRow(t, s.slug) && var p := t.providers[t.apps[s.slug].provider.value]; p.name == s.slug + " (aboard)" && IsForm(p.component, s.provider)
  }

  /** It points at a provider of another type that can be told. */
  ghost predicate OfAnotherType(t: Tables, s: Spec) {
    HasRow(t, s.slug) && var c := t.providers[t.apps[s.slug].provider.value].component; !c.OtherForm? && !IsForm(c, s.provider)
  }

  /** Title, access rule and bindings are as the labels ask already. */
  ghost predicate Alike(cfg: Config, lib: Library, s: Spec, t: Tables) {
    && s.slug in t.apps && t.apps[s.slug].name == s.title && t.apps[s.slug].mode in {"", if s.requireAll then "all" else "any"}
    && GatedAsAsked(cfg, lib, s, t)
  }

  /** Another provider of aboard's claims the host. */
  ghost predicate HostTaken(t: Tables, s: Spec) {
    s.provider.ForwardAuth? &&
    exists p :: p in t.providers && t.providers[p].component.ProxyForm? && t.providers[p].externalHost == "https://" + s.host
      && OfAnotherApp(t, s, p)
  }

  /** Named by aboard for another app, and not the row that is being taken over. */
  ghost predicate OfAnotherApp(t: Tables, s: Spec, p: nat)
    requires p in t.providers
  {
    && (exists slug: string :: t.providers[p].name == slug + " (aboard)") && t.providers[p].name != s.slug + " (aboard)"
    && !(s.slug in t.apps && !OursAlready(t, s) && t.apps[s.slug].provider == Some(p))
  }

  lemma OursIsOwned(t: Tables, s: Spec)
    ensures OursAlready(t, s) <==> OwnedAsWanted(t, s)
    ensures s.slug in t.apps && !OwnedAsWanted(t, s) ==>
              (OfAnotherType(t, s) <==> OwnerOf(t, s.slug, t.apps[s.slug]).Owned? || WrongType(t, s, t.apps[s.slug]))
  {
  }

  lemma HostIsTaken(t: Tables, s: Spec)
    ensures HostTaken(t, s) <==> !NoClaim(t, s)
  {
    OursIsOwned(t, s);
    forall p | p in t.providers
      ensures Collides(t, s, p) <==> t.providers[p].component.ProxyForm? && t.providers[p].externalHost == "https://" + s.host && OfAnotherApp(t, s, p)
    {
      AboardNames(t.providers[p].name);
    }
    hide Collides, OfAnotherApp;
  }

  /** Only what is bound as wanted is gated as asked. */
  lemma GatedIsBound(cfg: Config, lib: Library, s: Spec, t: Tables)
    requires Resolvable(cfg, lib, s, t.groups) && s.slug in t.apps && RealKeys(t, lib)
    ensures GatedAsAsked(cfg, lib, s, t) <==> ExactlyBound(t.bindings, t.apps[s.slug].pk, WantedKeys(cfg, lib, s, t.groups))
  {
    hide LetsIn, ExactlyBound;
    var groups := if s.groupsSet then s.groups else cfg.defaultGroups;
    if LetsIn(t, lib, t.apps[s.slug].pk, groups, s.policies) {
      LetsInIsExact(t, lib, t.apps[s.slug].pk, groups, s.policies);
    }
    if ExactlyBound(t.bindings, t.apps[s.slug].pk, WantedKeys(cfg, lib, s, t.groups)) {
      ExactlyBoundLetsIn(t, lib, t.apps[s.slug].pk, groups, s.policies);
    }
  }

  /** No group or policy has an empty pk. */
  ghost predicate RealKeys(t: Tables, lib: Library) {
    (forall g | g in t.groups :: t.groups[g] != "") && forall p | p in lib.policies :: lib.policies[p] != ""
  }

  lemma LetsInIsExact(t: Tables, lib: Library, app: nat, groups: seq<string>, policies: seq<string>)
    requires Known(groups, t.groups) && Known(policies, lib.policies) && RealKeys(t, lib) && LetsIn(t, lib, app, groups, policies)
    ensures ExactlyBound(t.bindings, app, GroupKeys(groups, t.groups) + PolicyKeys(policies, lib.policies))
  {
    hide Stray, Bound, BoundToGroup, BoundToPolicy, GroupKeys, PolicyKeys;
    var wanted := GroupKeys(groups, t.groups) + PolicyKeys(policies, lib.policies);
    forall b | b in t.bindings && t.bindings[b].target == app ensures !Stray(t.bindings[b], wanted) {
      LetInIsWanted(t, lib, groups, policies, t.bindings[b]);
    }
    forall k | k in wanted ensures Bound(t.bindings, app, k) {
      WantedIsBound(t, lib, app, groups, policies, k);
    }
  }

  lemma WantedIsBound(t: Tables, lib: Library, app: nat, groups: seq<string>, policies: seq<string>, k: Key)
    requires Known(groups, t.groups) && Known(policies, lib.policies) && RealKeys(t, lib) && LetsIn(t, lib, app, groups, policies)
    requires k in GroupKeys(groups, t.groups) + PolicyKeys(policies, lib.policies)
    ensures Bound(t.bindings, app, k)
  {
    hide Bound, BoundToGroup, BoundToPolicy;
    KeysHaveNames(groups, t.groups, k);
    KeysHaveNames(policies, lib.policies, k);
    hide GroupKeys, PolicyKeys;
    if k in GroupKeys(groups, t.groups) {
      var g :| g in groups && k == GroupKey(t.groups[g]);
      GroupIsBound(t, app, t.groups[g]);
    } else {
      var p :| p in policies && k == PolicyKey(lib.policies[p]);
      PolicyIsBound(t, app, lib.policies[p]);
    }
  }

  lemma KeysHaveNames(names: seq<string>, table: map<string, string>, k: Key)
    requires Known(names, table)
    ensures k in GroupKeys(names, table) ==> exists n :: n in names && k == GroupKey(table[n])
    ensures k in PolicyKeys(names, table) ==> exists n :: n in names && k == PolicyKey(table[n])
  {
    if k in GroupKeys(names, table) {
      var i :| 0 <= i < |names| && GroupKeys(names, table)[i] == k;
      assert names[i] in names;
    }
    if k in PolicyKeys(names, table) {
      var i :| 0 <= i < |names| && PolicyKeys(names, table)[i] == k;
      assert names[i] in names;
    }
  }

  lemma LetInIsWanted(t: Tables, lib: Library, groups: seq<string>, policies: seq<string>, b: Binding)
    requires Known(groups, t.groups) && Known(policies, lib.policies) && RealKeys(t, lib)
    requires (exists g :: g in groups && g in t.groups && BoundToGroup(b, t.groups[g]))
             || exists p :: p in policies && p in lib.policies && BoundToPolicy(b, lib.policies[p])
    ensures !Stray(b, GroupKeys(groups, t.groups) + PolicyKeys(policies, lib.policies))
  {
    var gs, ps := GroupKeys(groups, t.groups), PolicyKeys(policies, lib.policies);
    if g :| g in groups && g in t.groups && BoundToGroup(b, t.groups[g]) {
      var i :| 0 <= i < |groups| && groups[i] == g;
      assert (gs + ps)[i] == GroupKey(t.groups[g]);
    } else {
      var p :| p in policies && p in lib.policies && BoundToPolicy(b, lib.policies[p]);
      var i :| 0 <= i < |policies| && policies[i] == p;
      assert (gs + ps)[|gs| + i] == PolicyKey(lib.policies[p]);
    }
  }

  lemma GroupIsBound(t: Tables, app: nat, pk: string)
    requires pk != "" && exists b :: b in t.bindings && t.bindings[b].target == app && BoundToGroup(t.bindings[b], pk)
    ensures Bound(t.bindings, app, GroupKey(pk))
  {
    var b :| b in t.bindings && t.bindings[b].target == app && BoundToGroup(t.bindings[b], pk);
    assert KeyOf(t.bindings[b]) == Some(GroupKey(pk));
  }

  lemma PolicyIsBound(t: Tables, app: nat, pk: string)
    requires pk != "" && exists b :: b in t.bindings && t.bindings[b].target == app && BoundToPolicy(t.bindings[b], pk)
    ensures Bound(t.bindings, app, PolicyKey(pk))
  {
    var b :| b in t.bindings && t.bindings[b].target == app && BoundToPolicy(t.bindings[b], pk);
    assert KeyOf(t.bindings[b]) == Some(PolicyKey(pk));
  }

  /** An application that is not aboard's is adopted exactly when it is of no other type and either the labels say so or there is
      nothing to change that anyone would see. */
  lemma AdoptedExactlyWhen(cfg: Config, lib: Library, s: Spec, t: Tables)
    requires Resolvable(cfg, lib, s, t.groups) && RealKeys(t, lib) && s.slug in t.apps && !OursAlready(t, s)
    ensures var verdict := GateVerdict(t, s, t.apps[s.slug], WantedKeys(cfg, lib, s, t.groups));
            && (verdict.None? <==> !OfAnotherType(t, s) && (s.adopt || Alike(cfg, lib, s, t)))
            && (verdict == Some(AdoptTypeChange) <==> OfAnotherType(t, s))
            && (verdict == Some(AdoptConflict) <==> !OfAnotherType(t, s) && !s.adopt && !Alike(cfg, lib, s, t))
  {
    hide ExactlyBound, GatedAsAsked, WantedKeys, OwnerOf;
    OursIsOwned(t, s);
    GatedIsBound(cfg, lib, s, t);
    hide OfAnotherType, WrongType, Resolvable;
  }

  // The refusals.

  ghost predicate FlowsKnown(cfg: Config, lib: Library, s: Spec) {
    (if s.flow != "" then s.flow else cfg.authorizationFlow) in lib.flows && cfg.invalidationFlow in lib.flows
  }

  ghost predicate GroupsKnown(cfg: Config, s: Spec, t: Tables) {
    if s.groupsSet then forall g | g in s.groups :: g in t.groups else forall g | g in cfg.defaultGroups :: g in t.groups
  }

  ghost predicate PoliciesKnown(lib: Library, s: Spec) {
    forall p | p in s.policies :: p in lib.policies
  }

  ghost predicate NamesKnown(cfg: Config, lib: Library, s: Spec, t: Tables) {
    FlowsKnown(cfg, lib, s) && GroupsKnown(cfg, s, t) && PoliciesKnown(lib, s)
  }

  ghost predicate MayTakeOver(cfg: Config, lib: Library, s: Spec, t: Tables) {
    s.slug !in t.apps || OursAlready(t, s) || (!OfAnotherType(t, s) && (s.adopt || Alike(cfg, lib, s, t)))
  }

  /** The refusals in front of the body, each with the exact condition under which it is the one. */
  lemma RefusedExactlyWhen(cfg: Config, lib: Library, s: Spec, t: Tables)
    requires RealKeys(t, lib)
    ensures var r := EarlyRefusal(cfg, lib, s, t);
            && (r == Some(FlowMissing) <==> !FlowsKnown(cfg, lib, s))
            && (r == Some(GroupMissing) <==> FlowsKnown(cfg, lib, s) && !GroupsKnown(cfg, s, t))
            && (r == Some(PolicyMissing) <==> FlowsKnown(cfg, lib, s) && GroupsKnown(cfg, s, t) && !PoliciesKnown(lib, s))
            && (r == Some(AdoptTypeChange) <==>
                  NamesKnown(cfg, lib, s, t) && s.slug in t.apps && !OursAlready(t, s) && OfAnotherType(t, s))
            && (r == Some(AdoptConflict) <==>
                  NamesKnown(cfg, lib, s, t) && s.slug in t.apps && !OursAlready(t, s) && !OfAnotherType(t, s) && !s.adopt && !Alike(cfg, lib, s, t))
            && (r == Some(DuplicateHost) <==> NamesKnown(cfg, lib, s, t) && MayTakeOver(cfg, lib, s, t) && HostTaken(t, s))
            && (r.None? <==> NamesKnown(cfg, lib, s, t) && MayTakeOver(cfg, lib, s, t) && !HostTaken(t, s))
  {
    hide Alike, OfAnotherType, OursAlready, HostTaken, GateVerdict, OwnedAsWanted, NoClaim, WantedKeys;
    OursIsOwned(t, s);
    HostIsTaken(t, s);
    if NamesKnown(cfg, lib, s, t) && s.slug in t.apps && !OursAlready(t, s) {
      AdoptedExactlyWhen(cfg, lib, s, t);
    }
  }

  /** The refusals for want of something the provider needs. */
  lemma BodyRefusedExactlyWhen(cfg: Config, lib: Library, s: Spec)
    ensures var r := BodyRefusal(cfg, lib, s);
            match s.provider
            case ForwardAuth => r.None?
            case Oidc =>
              && (r == Some(SecretMissing) <==> !s.publicClient && cfg.secrets(s.secretName).None?)
              && (r == Some(SecretWeak) <==> !s.publicClient && cfg.secrets(s.secretName).Some? && |cfg.secrets(s.secretName).value| < 32)
              && (r == Some(SigningKeyMissing) <==> SecretFine(cfg, s) && cfg.oidcKey !in lib.certificates && lib.firstKey.None?)
              && (r in {Some(ScopeMissing), Some(GroupsScopeMissing)} <==>
                    SecretFine(cfg, s) && KeyFound(lib, cfg.oidcKey) && exists scope :: IsScope(cfg, s, scope) && scope !in lib.scopes)
              && (r.None? <==> SecretFine(cfg, s) && KeyFound(lib, cfg.oidcKey) && forall scope | IsScope(cfg, s, scope) :: scope in lib.scopes)
            case Saml =>
              && (r == Some(SigningKeyMissing) <==> !KeyFound(lib, cfg.samlKey))
              && (r == Some(SamlMappingMissing) <==> KeyFound(lib, cfg.samlKey) && exists n :: n in s.samlMappings && n !in lib.samlMappings)
              && (r.None? <==> KeyFound(lib, cfg.samlKey) && forall n | n in s.samlMappings :: n in lib.samlMappings)
            case Unrecognised => r == Some(ProviderUnknown)
  {
    hide IsScope, ScopeNames;
    ScopesAreAll(cfg, lib, s);
  }

  ghost predicate SecretFine(cfg: Config, s: Spec) {
    s.publicClient || (cfg.secrets(s.secretName).Some? && |cfg.secrets(s.secretName).value| >= 32)
  }

  ghost predicate KeyFound(lib: Library, name: string) {
    name in lib.certificates || lib.firstKey.Some?
  }

  // Success.

  /** The provider row to write is free or aboard's own, or it is the adopted one, of the wanted type, with the new name free. */
  ghost predicate RowIsFree(t: Tables, s: Spec) {
    if s.slug in t.apps && !OursAlready(t, s) && t.apps[s.slug].provider.Some? then
      var p := t.apps[s.slug].provider.value;
      p in t.providers && IsForm(t.providers[p].component, s.provider) && forall q | q in t.providers && q != p :: t.providers[q].name != s.slug + " (aboard)"
    else forall p | p in t.providers && t.providers[p].name == s.slug + " (aboard)" ::
      IsForm(t.providers[p].component, s.provider) && forall a | a in t.apps && a != s.slug :: t.apps[a].provider != Some(p)
  }

  ghost predicate OutpostExists(cfg: Config, s: Spec, t: Tables) {
    exists o :: 0 <= o < |t.outposts| && IsCalled(t.outposts[o], if s.outpost == "" then cfg.outpost else s.outpost)
  }

  /** What a calm reconcile needs, and nothing else. */
  lemma AdmissibleExactlyWhen(cfg: Config, lib: Library, s: Spec, t: Tables)
    requires RealKeys(t, lib)
    ensures Admissible(cfg, lib, s, t) <==>
              && FlowsKnown(cfg, lib, s) && GroupsKnown(cfg, s, t) && PoliciesKnown(lib, s) && MayTakeOver(cfg, lib, s, t) && !HostTaken(t, s)
              && BodyRefusal(cfg, lib, s).None? && RowIsFree(t, s) && (s.provider.ForwardAuth? ==> OutpostExists(cfg, s, t))
  {
    RefusedExactlyWhen(cfg, lib, s, t);
    if FlowsKnown(cfg, lib, s) {
      RefusedWithoutBody(cfg, lib, s);
    }
    NoFlowNoBody(cfg, lib, s);
    OursIsOwned(t, s);
    OutpostIsFound(cfg, s, t);
    RowIsThere(cfg, lib, s, t);
    hide RowIsFree, RowAvailable, MayTakeOver, HostTaken, BodyRefusal, DesiredBody, OutpostExists, FindOutpost, GateVerdict, NoClaim, OwnedAsWanted, WantedKeys,
         OursAlready, OfAnotherType, Alike;
  }

  lemma NoFlowNoBody(cfg: Config, lib: Library, s: Spec)
    ensures DesiredBody(cfg, lib, s).Some? ==> FlowsKnown(cfg, lib, s)
  {
    hide ScopeNames, OidcBody, SamlBody, ProxyBody, SigningKey;
  }

  lemma RowIsThere(cfg: Config, lib: Library, s: Spec, t: Tables)
    ensures !s.provider.Unrecognised? ==> (RowIsFree(t, s) <==> RowAvailable(t, s))
    ensures s.provider.Unrecognised? ==> BodyRefusal(cfg, lib, s).Some?
  {
    OursIsOwned(t, s);
    hide OursAlready, OwnedAsWanted;
  }

  lemma OutpostIsFound(cfg: Config, s: Spec, t: Tables)
    ensures OutpostExists(cfg, s, t) <==> FindOutpost(t.outposts, OutpostName(cfg, s)).Some?
  {
    if FindOutpost(t.outposts, OutpostName(cfg, s)).Some? {
      FirstIsFound(t.outposts, OutpostName(cfg, s));
    } else {
      NoneIsFound(t.outposts, OutpostName(cfg, s));
    }
  }
}
