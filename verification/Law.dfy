/** What every state of a reconcile owes the state it started from, phase by phase. */
module Law {
  import opened Options
  import opened Authentik
  import opened Desired
  import opened Lookups
  import opened Bindings

  // What the read-only prelude establishes before the first provider write.

  /** The existing application is already aboard's, of the wanted type. */
  predicate OwnedAsWanted(t: Tables, s: Spec) {
    s.slug in t.apps && OwnerOf(t, s.slug, t.apps[s.slug]).Owned? && OwnerOf(t, s.slug, t.apps[s.slug]).kind == s.provider
  }

  /** Reconciling would change nothing a user can see. */
  ghost predicate NoMaterialDiff(t: Tables, s: Spec, app: Application, wanted: seq<Key>) {
    && app.name == s.title && (app.mode == "" || app.mode == Mode(s))
    && ExactlyBound(t.bindings, app.pk, wanted)
  }

  /** The application points at a provider row of another known type. */
  predicate WrongType(t: Tables, s: Spec, app: Application) {
    && app.provider.Some? && app.provider.value in t.providers
    && KindOf(t.providers[app.provider.value].component) !in {s.provider, Unrecognised}
  }

  /** What the adoption gate decides about an application that is not aboard's as wanted. */
  ghost function GateVerdict(t: Tables, s: Spec, app: Application, wanted: seq<Key>): Option<Code> {
    if OwnerOf(t, s.slug, app).Owned? || WrongType(t, s, app) then Some(AdoptTypeChange)
    else if NoMaterialDiff(t, s, app, wanted) || s.adopt then None
    else Some(AdoptConflict)
  }

  /** The provider to take over in place, when the application is adopted. */
  function AdoptTarget(t: Tables, s: Spec): Option<nat> {
    if s.slug in t.apps && !OwnedAsWanted(t, s) then t.apps[s.slug].provider else None
  }

  predicate Collides(t: Tables, s: Spec, p: nat)
    requires p in t.providers
  {
    && t.providers[p].component.ProxyForm? && IsAboardName(t.providers[p].name) && t.providers[p].name != Marker(s.slug)
    && AdoptTarget(t, s) != Some(p) && t.providers[p].externalHost == "https://" + s.host
  }

  /** Every check in front of the first provider write has passed on `t`. */
  ghost predicate Cleared(cfg: Config, lib: Library, s: Spec, t: Tables) {
    && Resolvable(cfg, lib, s, t.groups)
    && (s.slug in t.apps && !OwnedAsWanted(t, s) ==>
          GateVerdict(t, s, t.apps[s.slug], WantedKeys(cfg, lib, s, t.groups)).None?)
    && NoClaim(t, s)
  }

  /** No other aboard-named proxy provider claims the host. */
  ghost predicate NoClaim(t: Tables, s: Spec) {
    s.provider.ForwardAuth? ==> forall p | p in t.providers :: !Collides(t, s, p)
  }

  /** What stands in the way before anything is written, in the order things are looked up. */
  ghost function EarlyRefusal(cfg: Config, lib: Library, s: Spec, t: Tables): Option<Code> {
    if FlowSlug(cfg, s) !in lib.flows || cfg.invalidationFlow !in lib.flows then Some(FlowMissing)
    else if !Known(EffectiveGroups(cfg, s), t.groups) then Some(GroupMissing)
    else if !Known(s.policies, lib.policies) then Some(PolicyMissing)
    else GateOrHost(t, s, WantedKeys(cfg, lib, s, t.groups))
  }

  ghost function GateOrHost(t: Tables, s: Spec, wanted: seq<Key>): Option<Code> {
    if s.slug in t.apps && !OwnedAsWanted(t, s) && GateVerdict(t, s, t.apps[s.slug], wanted).Some?
    then GateVerdict(t, s, t.apps[s.slug], wanted)
    else if NoClaim(t, s) then None else Some(DuplicateHost)
  }

  /** The one reason why the app is refused, if there is one. */
  ghost function Refusal(cfg: Config, lib: Library, s: Spec, t: Tables): Option<Code> {
    if EarlyRefusal(cfg, lib, s, t).Some? then EarlyRefusal(cfg, lib, s, t) else BodyRefusal(cfg, lib, s)
  }

  // The provider write.

  /** `target` is the row to converge: the adopted one, else the marker-named one of the wanted
      type, else a new one. */
  ghost predicate IsTarget(t: Tables, s: Spec, target: nat) {
    match AdoptTarget(t, s)
    case Some(p) => target == p
    case None =>
      if target in t.providers then t.providers[target].component == ComponentOf(s.provider) && t.providers[target].name == Marker(s.slug)
      else target == t.next && IsNamed(t, ComponentOf(s.provider), Marker(s.slug), None)
  }

  /** The server accepts the body for the row. */
  ghost predicate Placeable(t: Tables, kind: ProviderType, body: ProviderBody, target: nat) {
    && NameFree(t, body.name, target)
    && if target in t.providers then Serves(EndpointOf(kind), t.providers[target].component) else target == t.next
  }

  function Placed(t: Tables, kind: ProviderType, body: ProviderBody, target: nat): Tables {
    if target in t.providers then t.(providers := t.providers[target := Overlay(t.providers[target], body)])
    else t.(providers := t.providers[target := NewProvider(ComponentOf(kind), body)], next := t.next + 1)
  }

  ghost predicate ProviderStep(cfg: Config, lib: Library, s: Spec, t: Tables, target: nat, e: Entry) {
    && (e.op.Read? || e.op.CreateProvider? || (e.op.PatchProvider? && e.op.pk == target && e.op.endpoint == EndpointOf(s.provider)))
    && (e.after == t || (DesiredBody(cfg, lib, s).Some? && Placeable(t, s.provider, DesiredBody(cfg, lib, s).value, target)
                         && e.after == Placed(t, s.provider, DesiredBody(cfg, lib, s).value, target)))
  }

  // The application write.

  function AppRow(t: Tables, s: Spec, provider: nat): Application {
    if s.slug in t.apps then OverlayApp(t.apps[s.slug], DesiredApp(s, provider))
    else
      var b := DesiredApp(s, provider);
      Application(t.next, b.name, Some(provider), b.mode, b.meta)
  }

  function Iconed(s: Spec, app: Application): Application {
    if s.iconSet then app.(meta := app.meta["meta_icon" := s.icon]) else app
  }

  function WithApp(t: Tables, s: Spec, row: Application): Tables {
    t.(apps := t.apps[s.slug := row], next := if s.slug in t.apps then t.next else t.next + 1)
  }

  ghost predicate AppStep(s: Spec, t: Tables, provider: nat, e: Entry) {
    && (e.op.Read? || e.op.CreateApp? || e.op.PatchApp? || e.op.SetIcon?)
    && (e.after == t || e.after == WithApp(t, s, AppRow(t, s, provider)) || e.after == WithApp(t, s, Iconed(s, AppRow(t, s, provider))))
  }

  // The outpost write.

  function Listed(t: Tables, o: nat, pk: nat): Tables
    requires o < |t.outposts|
  {
    t.(outposts := t.outposts[o := t.outposts[o].(providers := With(t.outposts[o].providers, pk))])
  }

  ghost predicate OutpostStep(t: Tables, o: nat, pk: nat, e: Entry) {
    && (e.op.Read? || e.op.PatchOutpost?) && o < |t.outposts|
    && (e.after == t || e.after == Listed(t, o, pk))
  }

  // What every state owes the start.

  /** No list ever loses or reorders a provider. */
  ghost predicate ListsGrow(t0: Tables, t: Tables) {
    && |t.outposts| == |t0.outposts|
    && forall o | 0 <= o < |t.outposts| ::
         && t0.outposts[o].providers <= t.outposts[o].providers
         && t.outposts[o] == t0.outposts[o].(providers := t.outposts[o].providers)
  }

  /** Only the application at the slug, its bindings, and the provider it pointed at or that
      bears the marker have moved; groups and rows may have been added. */
  ghost predicate OthersUntouched(t0: Tables, slug: string, t: Tables) {
    && (forall p | p in t0.providers && t0.providers[p].name != Marker(slug)
          && !(slug in t0.apps && t0.apps[slug].provider == Some(p)) :: p in t.providers && t.providers[p] == t0.providers[p])
    && (forall p | p in t.providers && p !in t0.providers :: t.providers[p].name == Marker(slug))
    && (forall a | a in t0.apps && a != slug :: a in t.apps && t.apps[a] == t0.apps[a])
    && (forall a | a in t.apps && a != slug :: a in t0.apps)
    && (forall b | b in t0.bindings && !(slug in t0.apps && t0.bindings[b].target == t0.apps[slug].pk) ::
          b in t.bindings && t.bindings[b] == t0.bindings[b])
    && (forall b | b in t.bindings && !(slug in t.apps && t.bindings[b].target == t.apps[slug].pk) ::
          b in t0.bindings && t.bindings[b] == t0.bindings[b])
    && (slug in t0.apps ==> slug in t.apps && t.apps[slug].pk == t0.apps[slug].pk)
    && (slug !in t0.apps && slug in t.apps ==> t.apps[slug].pk >= t0.next)
    && (forall g | g in t0.groups :: g in t.groups && t.groups[g] == t0.groups[g])
    && t0.next <= t.next
  }

  /** The one provider row that is new or different bears the marker, is of the wanted type and
      claims the wanted host. */
  ghost predicate RowIsOwn(t0: Tables, s: Spec, t: Tables) {
    && (forall p | p in t0.providers :: p in t.providers && t.providers[p].component == t0.providers[p].component)
    && (forall p | p in t.providers && p !in t0.providers :: p >= t0.next)
    && forall p | p in t.providers && !(p in t0.providers && t.providers[p] == t0.providers[p]) ::
      && t.providers[p].name == Marker(s.slug) && t.providers[p].component == ComponentOf(s.provider)
      && (s.provider.ForwardAuth? ==> t.providers[p].externalHost == "https://" + s.host)
  }

  /** Without aboard.adopt, an application that is not aboard's keeps its title, its access rule
      and every binding. */
  ghost predicate AccessKept(t0: Tables, s: Spec, t: Tables) {
    !s.adopt && s.slug in t0.apps && !OwnedAsWanted(t0, s) ==>
      && t.bindings == t0.bindings && s.slug in t.apps && t.apps[s.slug].name == t0.apps[s.slug].name
      && (t0.apps[s.slug].mode != "" ==> t.apps[s.slug].mode == t0.apps[s.slug].mode)
  }

  /** A typed PATCH goes to a row of that type, or to one no typed endpoint serves. */
  ghost predicate RightlyTyped(t0: Tables, kind: ProviderType, op: Op) {
    op.PatchProvider? && op.pk in t0.providers ==>
      op.endpoint == EndpointOf(kind) && t0.providers[op.pk].component in {ComponentOf(kind), OtherForm}
  }

  /** The application points where it did, or at the marker. */
  ghost predicate LinkIsOwn(t0: Tables, s: Spec, t: Tables) {
    s.slug in t.apps && t.apps[s.slug].provider.Some? ==>
      || (s.slug in t0.apps && t.apps[s.slug].provider == t0.apps[s.slug].provider)
      || (t.apps[s.slug].provider.value in t.providers && t.providers[t.apps[s.slug].provider.value].name == Marker(s.slug))
  }

  ghost predicate Lawful(cfg: Config, lib: Library, s: Spec, t0: Tables, e: Entry) {
    && (HostsUnique(t0) ==> HostsUnique(e.after))
    && ListsGrow(t0, e.after)
    && OthersUntouched(t0, s.slug, e.after)
    && (e.op.PatchOutpost? || e.after.outposts != t0.outposts ==> Realised(cfg, lib, s, e.after))
    && (Converged(cfg, lib, s, t0) ==> e.after == t0)
    && RightlyTyped(t0, s.provider, e.op)
    && AccessKept(t0, s, e.after)
    && GroupsAsked(t0, EffectiveGroups(cfg, s), e.after)
    && RowIsOwn(t0, s, e.after) && LinkIsOwn(t0, s, e.after)
  }

  ghost predicate LawfulSince(cfg: Config, lib: Library, s: Spec, t0: Tables, trace: seq<Entry>, n: nat) {
    n <= |trace| && forall i | n <= i < |trace| :: Lawful(cfg, lib, s, t0, trace[i])
  }

  /** No list has moved yet. */
  ghost predicate Still(t0: Tables, trace: seq<Entry>, n: nat) {
    n <= |trace| && forall i | n <= i < |trace| :: trace[i].after.outposts == t0.outposts
  }

  /** From the `n`-th request on, no list ever loses a provider it once had. */
  ghost predicate OnlyGrows(trace: seq<Entry>, n: nat, now: Tables) {
    && n <= |trace|
    && (forall i, j | n <= i <= j < |trace| :: ListsGrow(trace[i].after, trace[j].after))
    && (forall i | n <= i < |trace| :: ListsGrow(trace[i].after, now))
  }

  // Phase a: groups.

  lemma LawfulGroups(cfg: Config, lib: Library, s: Spec, t0: Tables, e: Entry)
    requires GroupStep(t0, e) && GroupsAsked(t0, EffectiveGroups(cfg, s), e.after) && (Converged(cfg, lib, s, t0) ==> e.after == t0)
    ensures Lawful(cfg, lib, s, t0, e) && e.after.outposts == t0.outposts
  {
    assert HostsUnique(t0) ==> HostsUnique(e.after);
  }

  /** A state that differs only in groups asks the gate and the ownership test the same questions. */
  lemma GroupsDoNotMatter(s: Spec, t0: Tables, t: Tables)
    requires GroupStep(t0, Entry(Read, t))
    ensures OwnedAsWanted(t, s) == OwnedAsWanted(t0, s) && AdoptTarget(t, s) == AdoptTarget(t0, s)
  {
  }

  lemma SameRow(t: Tables, s: Spec, target: nat, p: nat)
    requires NamesUnique(t) && p in t.providers && target in t.providers
    requires t.providers[p].name == Marker(s.slug) && t.providers[target].name == Marker(s.slug)
    ensures p == target
  {
  }

  lemma DesiredName(cfg: Config, lib: Library, s: Spec)
    requires DesiredBody(cfg, lib, s).Some?
    ensures DesiredBody(cfg, lib, s).value.name == Marker(s.slug) && |Marker(s.slug)| > 0
    ensures s.provider.ForwardAuth? ==> DesiredBody(cfg, lib, s).value.externalHost == "https://" + s.host
    ensures !s.provider.Unrecognised?
  {
  }

  // Phase b: the provider.

  /** The row that is written ends up of the wanted type. */
  lemma PlacedType(cfg: Config, lib: Library, s: Spec, t: Tables, target: nat)
    requires Cleared(cfg, lib, s, t) && IsTarget(t, s, target) && DesiredBody(cfg, lib, s).Some?
    requires Placeable(t, s.provider, DesiredBody(cfg, lib, s).value, target)
    ensures target in t.providers ==> t.providers[target].component == ComponentOf(s.provider)
    ensures var row := Placed(t, s.provider, DesiredBody(cfg, lib, s).value, target).providers[target];
            row.component == ComponentOf(s.provider) && row.name == Marker(s.slug)
            && (s.provider.ForwardAuth? ==> row.externalHost == "https://" + s.host)
  {
    DesiredName(cfg, lib, s);
    if target in t.providers && AdoptTarget(t, s).Some? {
      assert !WrongType(t, s, t.apps[s.slug]);
    }
  }

  /** Passing the collision check is what keeps external hosts unique, adoption renames included. */
  lemma PlacedHostsUnique(cfg: Config, lib: Library, s: Spec, t: Tables, target: nat)
    requires Cleared(cfg, lib, s, t) && IsTarget(t, s, target) && DesiredBody(cfg, lib, s).Some?
    requires Placeable(t, s.provider, DesiredBody(cfg, lib, s).value, target) && HostsUnique(t)
    ensures HostsUnique(Placed(t, s.provider, DesiredBody(cfg, lib, s).value, target))
  {
    hide Resolvable, GateVerdict, WantedKeys, OwnedAsWanted;
    var after := Placed(t, s.provider, DesiredBody(cfg, lib, s).value, target);
    PlacedType(cfg, lib, s, t, target);
    DesiredName(cfg, lib, s);
    forall q | q in after.providers && q != target && Claims(after.providers[q]) && Claims(after.providers[target])
      ensures after.providers[q].externalHost != after.providers[target].externalHost
    {
      assert s.provider.ForwardAuth? && t.providers[q].name != Marker(s.slug);
      assert !Collides(t, s, q);
    }
  }

  /** A host that nobody else claimed when the gate let it through is claimed by nobody else after. */
  lemma PlacedNoClaim(cfg: Config, lib: Library, s: Spec, tA: Tables, target: nat, t: Tables)
    requires Cleared(cfg, lib, s, tA) && IsTarget(tA, s, target) && DesiredBody(cfg, lib, s).Some?
    requires t.providers == Placed(tA, s.provider, DesiredBody(cfg, lib, s).value, target).providers
    requires OwnedAsWanted(t, s)
    ensures NoClaim(t, s)
  {
    DesiredName(cfg, lib, s);
    PlacedName(s.provider, tA, DesiredBody(cfg, lib, s).value, target);
    hide DesiredBody, Placed, Resolvable, GateVerdict;
    forall p | s.provider.ForwardAuth? && p in t.providers && p != target ensures !Collides(t, s, p) {
      assert !Collides(tA, s, p);
    }
  }

  /** On a converged store the write repeats what is there. */
  lemma PlacedConverged(cfg: Config, lib: Library, s: Spec, t: Tables, target: nat)
    requires NamesUnique(t) && Converged(cfg, lib, s, t) && IsTarget(t, s, target)
    requires Placeable(t, s.provider, DesiredBody(cfg, lib, s).value, target)
    ensures Placed(t, s.provider, DesiredBody(cfg, lib, s).value, target) == t
    ensures t.apps[s.slug].provider == Some(target)
  {
    var p := t.apps[s.slug].provider.value;
    DesiredName(cfg, lib, s);
    assert t.providers[p].name == Marker(s.slug);
    assert AdoptTarget(t, s).None?;
    assert target in t.providers by {
      assert target == t.next || t.providers[target].component == ComponentOf(s.provider);
    }
    SameRow(t, s, target, p);
  }

  lemma PlacedName(kind: ProviderType, t: Tables, body: ProviderBody, target: nat)
    requires body.name != ""
    ensures var after := Placed(t, kind, body, target);
            && target in after.providers && after.providers[target].name == body.name
            && after.providers.Keys == t.providers.Keys + {target}
            && forall p | p in t.providers && p != target :: after.providers[p] == t.providers[p]
  {
  }

  lemma ProviderTouchesProviders(cfg: Config, lib: Library, s: Spec, t: Tables, target: nat, e: Entry)
    requires ProviderStep(cfg, lib, s, t, target, e)
    ensures e.after == t.(providers := e.after.providers, next := e.after.next) && t.next <= e.after.next
    ensures !e.op.PatchOutpost?
    ensures forall p | p in t.providers && p != target :: p in e.after.providers && e.after.providers[p] == t.providers[p]
    ensures forall p | p in e.after.providers && p !in t.providers :: p == target && e.after.providers[p].name == Marker(s.slug)
  {
    if e.after != t {
      DesiredName(cfg, lib, s);
      PlacedName(s.provider, t, DesiredBody(cfg, lib, s).value, target);
    }
  }

  lemma ProviderFrame(cfg: Config, lib: Library, s: Spec, t0: Tables, t: Tables, target: nat, e: Entry)
    requires RowsBelow(t) && GroupStep(t0, Entry(Read, t)) && IsTarget(t, s, target) && ProviderStep(cfg, lib, s, t, target, e)
    ensures OthersUntouched(t0, s.slug, e.after) && AccessKept(t0, s, e.after)
  {
    ProviderTouchesProviders(cfg, lib, s, t, target, e);
    GroupsDoNotMatter(s, t0, t);
    hide ProviderStep;
  }

  lemma PatchIsTyped(cfg: Config, lib: Library, s: Spec, t0: Tables, t: Tables, target: nat, e: Entry)
    requires GroupStep(t0, Entry(Read, t)) && Cleared(cfg, lib, s, t) && IsTarget(t, s, target)
    requires ProviderStep(cfg, lib, s, t, target, e)
    ensures RightlyTyped(t0, s.provider, e.op)
  {
    if target in t.providers && AdoptTarget(t, s).Some? {
      assert !WrongType(t, s, t.apps[s.slug]);
    }
  }

  lemma PlaceableMeans(t: Tables, kind: ProviderType, body: ProviderBody, target: nat)
    requires Placeable(t, kind, body, target)
    ensures target in t.providers || target == t.next
  {
  }

  lemma PlacedRowIsOwn(cfg: Config, lib: Library, s: Spec, t0: Tables, t: Tables, target: nat, e: Entry)
    requires GroupStep(t0, Entry(Read, t)) && Cleared(cfg, lib, s, t) && IsTarget(t, s, target)
    requires ProviderStep(cfg, lib, s, t, target, e)
    ensures RowIsOwn(t0, s, e.after)
  {
    hide Cleared, IsTarget, DesiredBody, Placeable, Placed, Marker;
    if e.after != t {
      PlacedType(cfg, lib, s, t, target);
      DesiredName(cfg, lib, s);
      PlacedName(s.provider, t, DesiredBody(cfg, lib, s).value, target);
      PlaceableMeans(t, s.provider, DesiredBody(cfg, lib, s).value, target);
    }
  }

  lemma ProviderLinks(s: Spec, t0: Tables, t: Tables, e: Entry)
    requires GroupStep(t0, Entry(Read, t)) && e.after.apps == t.apps
    ensures LinkIsOwn(t0, s, e.after)
  {
  }

  lemma LawfulProvider(cfg: Config, lib: Library, s: Spec, t0: Tables, t: Tables, target: nat, e: Entry)
    requires WellFormed(t0) && WellFormed(t) && GroupStep(t0, Entry(Read, t)) && Lawful(cfg, lib, s, t0, Entry(Read, t))
    requires Cleared(cfg, lib, s, t) && IsTarget(t, s, target) && ProviderStep(cfg, lib, s, t, target, e)
    ensures Lawful(cfg, lib, s, t0, e) && e.after.outposts == t0.outposts
  {
    ProviderFrame(cfg, lib, s, t0, t, target, e);
    PatchIsTyped(cfg, lib, s, t0, t, target, e);
    PlacedRowIsOwn(cfg, lib, s, t0, t, target, e);
    ProviderTouchesProviders(cfg, lib, s, t, target, e);
    assert e.after.outposts == t0.outposts;
    assert HostsUnique(t) ==> HostsUnique(e.after) by {
      if HostsUnique(t) && e.after != t {
        PlacedHostsUnique(cfg, lib, s, t, target);
      }
    }
    assert Converged(cfg, lib, s, t0) ==> e.after == t0 by {
      if Converged(cfg, lib, s, t0) && e.after != t {
        PlacedConverged(cfg, lib, s, t0, target);
      }
    }
    ProviderLinks(s, t0, t, e);
    hide IsTarget, OthersUntouched, RowIsOwn, LinkIsOwn, RightlyTyped, GroupStep, Cleared, Ready, Realised, Converged, HostsUnique, ProviderStep, AccessKept, WellFormed;
    assert ListsGrow(t0, e.after);
  }

  // Phase c: the application.

  lemma SameProvidersSameHosts(t: Tables, after: Tables)
    requires after.providers == t.providers
    ensures HostsUnique(after) == HostsUnique(t)
  {
  }

  lemma AppFrame(s: Spec, t0: Tables, t: Tables, provider: nat, e: Entry)
    requires OthersUntouched(t0, s.slug, t) && AppStep(s, t, provider, e)
    ensures OthersUntouched(t0, s.slug, e.after) && e.after.outposts == t.outposts && e.after.providers == t.providers
  {
  }

  /** An adoption without aboard.adopt has nothing to change in title or access rule. */
  lemma AppAccessKept(cfg: Config, lib: Library, s: Spec, t0: Tables, tA: Tables, tB: Tables, provider: nat, e: Entry)
    requires GroupStep(t0, Entry(Read, tA)) && Cleared(cfg, lib, s, tA)
    requires tB.apps == tA.apps && tB.bindings == tA.bindings && AppStep(s, tB, provider, e)
    ensures AccessKept(t0, s, e.after)
  {
    GroupsDoNotMatter(s, t0, tA);
  }

  lemma AppConverged(cfg: Config, lib: Library, s: Spec, t: Tables, provider: nat, e: Entry)
    requires Converged(cfg, lib, s, t) && t.apps[s.slug].provider == Some(provider) && AppStep(s, t, provider, e)
    ensures e.after == t
  {
    var app := t.apps[s.slug];
    assert AppRow(t, s, provider) == app && Iconed(s, app) == app by {
      assert s.iconSet ==> app.meta["meta_icon" := s.icon] == app.meta;
    }
    assert t.apps[s.slug := app] == t.apps;
  }

  lemma AppLinks(s: Spec, t0: Tables, t: Tables, provider: nat, e: Entry)
    requires LinkIsOwn(t0, s, t) && AppStep(s, t, provider, e)
    requires provider in t.providers && t.providers[provider].name == Marker(s.slug)
    ensures LinkIsOwn(t0, s, e.after)
  {
  }

  lemma SameRowIsOwn(t0: Tables, s: Spec, t: Tables, after: Tables)
    requires RowIsOwn(t0, s, t) && after.providers == t.providers
    ensures RowIsOwn(t0, s, after)
    ensures after.apps == t.apps && LinkIsOwn(t0, s, t) ==> LinkIsOwn(t0, s, after)
  {
  }

  lemma LawfulApp(cfg: Config, lib: Library, s: Spec, t0: Tables, tA: Tables, tB: Tables, provider: nat, e: Entry)
    requires GroupStep(t0, Entry(Read, tA)) && Cleared(cfg, lib, s, tA) && Lawful(cfg, lib, s, t0, Entry(Read, tB))
    requires tB.apps == tA.apps && tB.bindings == tA.bindings && tB.outposts == t0.outposts && AppStep(s, tB, provider, e)
    requires Converged(cfg, lib, s, t0) ==> t0.apps[s.slug].provider == Some(provider)
    requires provider in tB.providers && tB.providers[provider].name == Marker(s.slug)
    ensures Lawful(cfg, lib, s, t0, e) && e.after.outposts == t0.outposts
  {
    AppFrame(s, t0, tB, provider, e);
    AppAccessKept(cfg, lib, s, t0, tA, tB, provider, e);
    SameProvidersSameHosts(tB, e.after);
    AppLinks(s, t0, tB, provider, e);
    SameRowIsOwn(t0, s, tB, e.after);
    if Converged(cfg, lib, s, t0) {
      AppConverged(cfg, lib, s, t0, provider, e);
    }
    hide OthersUntouched, RowIsOwn, LinkIsOwn, AppStep, AccessKept, HostsUnique, Converged, Ready, Realised, Cleared, GroupStep;
    assert ListsGrow(t0, e.after);
  }

  // Phase d: the bindings.

  lemma BindingFrame(s: Spec, t0: Tables, t: Tables, wanted: seq<Key>, e: Entry)
    requires RowsBelow(t0) && OthersUntouched(t0, s.slug, t) && s.slug in t.apps
    requires if s.slug in t0.apps then t.apps[s.slug].pk == t0.apps[s.slug].pk else t.apps[s.slug].pk >= t0.next
    requires BindingStep(t, t.apps[s.slug].pk, wanted, e)
    ensures OthersUntouched(t0, s.slug, e.after) && e.after.providers == t.providers && e.after.apps == t.apps
    ensures e.after.outposts == t.outposts && e.after.groups == t.groups
  {
  }

  lemma LawfulBindings(cfg: Config, lib: Library, s: Spec, t0: Tables, tA: Tables, tC: Tables, e: Entry)
    requires RowsBelow(t0) && GroupStep(t0, Entry(Read, tA)) && Cleared(cfg, lib, s, tA) && Lawful(cfg, lib, s, t0, Entry(Read, tC))
    requires s.slug in tC.apps && tC.groups == tA.groups && tC.bindings == tA.bindings && tC.outposts == t0.outposts
    requires if s.slug in t0.apps then tC.apps[s.slug].pk == t0.apps[s.slug].pk else tC.apps[s.slug].pk >= t0.next
    requires BindingStep(tC, tC.apps[s.slug].pk, WantedKeys(cfg, lib, s, tA.groups), e)
    requires ExactlyBound(tC.bindings, tC.apps[s.slug].pk, WantedKeys(cfg, lib, s, tA.groups)) ==> e.after == tC
    ensures Lawful(cfg, lib, s, t0, e) && e.after.outposts == t0.outposts
  {
    hide OthersUntouched, RowIsOwn, LinkIsOwn, HostsUnique, Cleared, GroupStep, ExactlyBound, OwnedAsWanted, Ready, Realised, AccessKept,
         Converged, RowsBelow, Resolvable, WantedKeys, NoStray;
    ClearedIsResolvable(cfg, lib, s, tA);
    ConvergedIsBound(cfg, lib, s, t0);
    BindingFrame(s, t0, tC, WantedKeys(cfg, lib, s, tA.groups), e);
    SameProvidersSameHosts(tC, e.after);
    SameRowIsOwn(t0, s, tC, e.after);
    GateMeansBound(cfg, lib, s, t0, tA, tC);
    AccessKeptOn(s, t0, tC, e.after);
    hide BindingStep;
  }

  /** What passed the gate without the opt-in and is not aboard's is bound as wanted already. */
  lemma GateMeansBound(cfg: Config, lib: Library, s: Spec, t0: Tables, tA: Tables, tC: Tables)
    requires GroupStep(t0, Entry(Read, tA)) && Cleared(cfg, lib, s, tA) && s.slug in tC.apps && tC.bindings == tA.bindings
    requires if s.slug in t0.apps then tC.apps[s.slug].pk == t0.apps[s.slug].pk else tC.apps[s.slug].pk >= t0.next
    ensures !s.adopt && s.slug in t0.apps && !OwnedAsWanted(t0, s) ==>
              ExactlyBound(tC.bindings, tC.apps[s.slug].pk, WantedKeys(cfg, lib, s, tA.groups))
  {
    GroupsDoNotMatter(s, t0, tA);
    hide OwnedAsWanted, ExactlyBound, NoClaim, WantedKeys, Resolvable;
  }

  lemma ClearedIsResolvable(cfg: Config, lib: Library, s: Spec, t: Tables)
    requires Cleared(cfg, lib, s, t)
    ensures Resolvable(cfg, lib, s, t.groups)
  {
  }

  lemma ConvergedIsBound(cfg: Config, lib: Library, s: Spec, t: Tables)
    ensures Converged(cfg, lib, s, t) ==>
              s.slug in t.apps && Resolvable(cfg, lib, s, t.groups) && ExactlyBound(t.bindings, t.apps[s.slug].pk, WantedKeys(cfg, lib, s, t.groups))
  {
  }

  lemma AccessKeptOn(s: Spec, t0: Tables, t: Tables, after: Tables)
    requires AccessKept(t0, s, t) && (!s.adopt && s.slug in t0.apps && !OwnedAsWanted(t0, s) ==> after == t)
    ensures AccessKept(t0, s, after)
  {
  }

  // Phase e: the outpost.

  lemma RealisedIgnoresOutposts(cfg: Config, lib: Library, s: Spec, t: Tables, after: Tables)
    requires after == t.(outposts := after.outposts)
    ensures Realised(cfg, lib, s, after) == Realised(cfg, lib, s, t) && Ready(cfg, lib, s, after) == Ready(cfg, lib, s, t)
    ensures OthersUntouched(t, s.slug, after)
  {
  }

  lemma OutpostFrame(s: Spec, t0: Tables, t: Tables, after: Tables)
    requires OthersUntouched(t0, s.slug, t) && after == t.(outposts := after.outposts)
    ensures OthersUntouched(t0, s.slug, after) && HostsUnique(after) == HostsUnique(t)
    ensures AccessKept(t0, s, t) ==> AccessKept(t0, s, after)
  {
    SameProvidersSameHosts(t, after);
  }

  lemma ListGrows(t0: Tables, t: Tables, o: nat, pk: nat, e: Entry)
    requires ListsGrow(t0, t) && OutpostStep(t, o, pk, e)
    ensures ListsGrow(t0, e.after) && e.after == t.(outposts := e.after.outposts)
  {
  }

  /** On a converged store the provider is listed already. */
  lemma ListedAlready(cfg: Config, lib: Library, s: Spec, t: Tables, pk: nat, o: nat, e: Entry)
    requires OutpostStep(t, o, pk, e) && FindOutpost(t.outposts, OutpostName(cfg, s)) == Some(o) && s.provider.ForwardAuth?
    ensures Converged(cfg, lib, s, t) && t.apps[s.slug].provider == Some(pk) ==> e.after == t
  {
    hide FindOutpost, Realised, Ready;
    assert t.outposts[o := t.outposts[o]] == t.outposts;
  }

  lemma LawfulOutpost(cfg: Config, lib: Library, s: Spec, t0: Tables, tD: Tables, pk: nat, o: nat, e: Entry)
    requires Lawful(cfg, lib, s, t0, Entry(Read, tD)) && Realised(cfg, lib, s, tD) && tD.apps[s.slug].provider == Some(pk)
    requires OutpostStep(tD, o, pk, e) && FindOutpost(tD.outposts, OutpostName(cfg, s)) == Some(o) && s.provider.ForwardAuth?
    ensures Lawful(cfg, lib, s, t0, e)
  {
    hide GroupsAsked, OthersUntouched, RowIsOwn, LinkIsOwn, HostsUnique, AccessKept, FindOutpost, Converged, ListsGrow;
    ListGrows(t0, tD, o, pk, e);
    OutpostFrame(s, t0, tD, e.after);
    RealisedIgnoresOutposts(cfg, lib, s, tD, e.after);
    ListedAlready(cfg, lib, s, tD, pk, o, e);
    SameGroupsAsked(cfg, s, t0, tD, e.after);
    SameRowIsOwn(t0, s, tD, e.after);
    hide Ready, Realised;
  }

  lemma SameGroupsAsked(cfg: Config, s: Spec, t0: Tables, t: Tables, after: Tables)
    ensures GroupsAsked(t0, EffectiveGroups(cfg, s), t) && after.groups == t.groups ==> GroupsAsked(t0, EffectiveGroups(cfg, s), after)
  {
  }

  // The end.

  lemma OverlayTwice(p: Provider, b: ProviderBody)
    ensures Overlay(Overlay(p, b), b) == Overlay(p, b) && Overlay(NewProvider(p.component, b), b) == NewProvider(p.component, b)
  {
    assert (p.fields + b.fields) + b.fields == p.fields + b.fields && b.fields + b.fields == b.fields;
  }

  lemma AppRowStays(t: Tables, s: Spec, provider: nat)
    ensures var row := Iconed(s, AppRow(t, s, provider));
            && OverlayApp(row, DesiredApp(s, provider)) == row
            && (s.iconSet ==> "meta_icon" in row.meta && row.meta["meta_icon"] == s.icon)
  {
    var row, b := Iconed(s, AppRow(t, s, provider)), DesiredApp(s, provider);
    assert "meta_icon" !in b.meta;
    assert row.meta + b.meta == row.meta;
  }

  /** Sending the desired body and application once makes sending them again a no-op. */
  lemma RealisedAtLast(cfg: Config, lib: Library, s: Spec, tA: Tables, pk: nat, tB: Tables, t: Tables)
    requires Ready(cfg, lib, s, t) && DesiredBody(cfg, lib, s).Some? && t.apps[s.slug].provider == Some(pk)
    requires t.providers == Placed(tA, s.provider, DesiredBody(cfg, lib, s).value, pk).providers
    requires t.apps[s.slug] == Iconed(s, AppRow(tB, s, pk))
    ensures Realised(cfg, lib, s, t)
  {
    var body := DesiredBody(cfg, lib, s).value;
    if pk in tA.providers {
      OverlayTwice(tA.providers[pk], body);
    } else {
      OverlayTwice(NewProvider(ComponentOf(s.provider), body), body);
    }
    AppRowStays(tB, s, pk);
    hide AppRow, Iconed, Overlay, OverlayApp, Ready, NewProvider, DesiredBody, DesiredApp;
  }
}
