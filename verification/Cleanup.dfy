/** Orphans: finding aboard's providers that no enabled container stands behind, and deleting
    one of them in an order that never leaves a listed provider without its application. */
module Cleanup {
  import opened Options
  import opened Authentik
  import opened Desired
  import opened Lookups
  import opened Text

  // Teardown.

  function Without(list: seq<nat>, pk: nat): (kept: seq<nat>)
    ensures pk !in kept && forall p | p != pk :: p in kept <==> p in list
    ensures |kept| <= |list|
  {
    if list == [] then []
    else
      var rest := Without(list[..|list| - 1], pk);
      if list[|list| - 1] == pk then rest else rest + [list[|list| - 1]]
  }

  /** `pk` off the embedded outpost's list, when that outpost exists. */
  function Detached(t: Tables, pk: nat): Tables {
    match FindOutpost(t.outposts, EMBEDDED)
    case None => t
    case Some(o) => t.(outposts := t.outposts[o := t.outposts[o].(providers := Without(t.outposts[o].providers, pk))])
  }

  function Deleted(t: Tables, pk: nat): Tables {
    t.(providers := t.providers - {pk}, apps := map s | s in t.apps :: Unlinked(t.apps[s], pk))
  }

  function Gone(t: Tables, slug: string): Tables {
    t.(apps := t.apps - {slug})
  }

  /** How far a teardown has come: nothing, detached, provider deleted, application deleted. */
  datatype Stage = Untouched | Unlisted | Unprovided | Finished

  function StageOf(t0: Tables, slug: string, own: Ownership, stage: Stage): Tables {
    if own.Unowned? then t0
    else
      var unlisted := if own.kind.ForwardAuth? then Detached(t0, own.pk) else t0;
      match stage
      case Untouched => t0
      case Unlisted => unlisted
      case Unprovided => Deleted(unlisted, own.pk)
      case Finished => Gone(Deleted(unlisted, own.pk), slug)
  }

  ghost predicate TeardownStep(t0: Tables, slug: string, own: Ownership, t: Tables) {
    exists stage :: t == StageOf(t0, slug, own, stage)
  }

  ghost predicate TeardownSteps(t0: Tables, slug: string, own: Ownership, trace: seq<Entry>, n: nat) {
    n <= |trace| && forall i | n <= i < |trace| :: TeardownStep(t0, slug, own, trace[i].after)
  }

  ghost function OwnerAt(t: Tables, slug: string): Ownership {
    if slug in t.apps then OwnerOf(t, slug, t.apps[slug]) else Unowned
  }

  ghost predicate OnEmbedded(t: Tables, pk: nat) {
    var o := FindOutpost(t.outposts, EMBEDDED);
    o.Some? && pk in t.outposts[o.value].providers
  }

  lemma {:induction false} RelistedSameFind(outposts: seq<Outpost>, o: nat, list: seq<nat>, name: string)
    requires o < |outposts|
    ensures FindOutpost(outposts[o := outposts[o].(providers := list)], name) == FindOutpost(outposts, name)
  {
    var after := outposts[o := outposts[o].(providers := list)];
    var last := |outposts| - 1;
    if o < last {
      assert after[..last] == outposts[..last][o := outposts[o].(providers := list)];
      RelistedSameFind(outposts[..last], o, list, name);
    } else {
      assert after[..last] == outposts[..last];
    }
  }

  lemma DetachedIsOff(t: Tables, pk: nat)
    ensures !OnEmbedded(Detached(t, pk), pk)
    ensures Detached(t, pk) == t.(outposts := Detached(t, pk).outposts)
  {
    var o := FindOutpost(t.outposts, EMBEDDED);
    if o.Some? {
      RelistedSameFind(t.outposts, o.value, Without(t.outposts[o.value].providers, pk), EMBEDDED);
    }
  }

  /** In every state of a teardown: with the application gone its provider is gone, and with a
      forward-auth provider gone it is no longer listed by the embedded outpost. */
  lemma TeardownOrder(t0: Tables, slug: string, kind: ProviderType, pk: nat, t: Tables)
    requires OwnerAt(t0, slug) == Owned(kind, pk) && TeardownStep(t0, slug, Owned(kind, pk), t)
    ensures slug !in t.apps ==> pk !in t.providers
    ensures pk !in t.providers && kind.ForwardAuth? ==> !OnEmbedded(t, pk)
  {
    DetachedIsOff(t0, pk);
    var stage :| t == StageOf(t0, slug, Owned(kind, pk), stage);
    hide FindOutpost, Detached;
  }

  /** Nothing but the one application and its provider moves among the tables. */
  ghost predicate OnlyOneRemoved(t0: Tables, slug: string, pk: nat, t: Tables) {
    && (t.providers == t0.providers || t.providers == t0.providers - {pk})
    && (forall a | a in t0.apps && a != slug :: a in t.apps && t.apps[a] == t0.apps[a])
    && (forall a | a in t.apps :: a in t0.apps)
    && t.bindings == t0.bindings && t.groups == t0.groups
  }

  /** No list changes but the embedded one, and that one only by losing `pk`. */
  ghost predicate OnlyOneUnlisted(t0: Tables, pk: nat, t: Tables) {
    && |t.outposts| == |t0.outposts|
    && forall o | 0 <= o < |t.outposts| ::
         && t.outposts[o] == t0.outposts[o].(providers := t.outposts[o].providers)
         && (t.outposts[o].providers != t0.outposts[o].providers ==> Some(o) == FindOutpost(t0.outposts, EMBEDDED))
         && forall p | p != pk :: p in t.outposts[o].providers <==> p in t0.outposts[o].providers
  }

  lemma DetachFrame(t: Tables, pk: nat)
    ensures OnlyOneUnlisted(t, pk, Detached(t, pk)) && OnlyOneUnlisted(t, pk, t)
  {
  }

  lemma DeleteFrame(t0: Tables, slug: string, kind: ProviderType, pk: nat, t: Tables)
    requires AppsDistinct(t0) && OwnerAt(t0, slug) == Owned(kind, pk)
    requires t == t0.(outposts := t.outposts)
    ensures OnlyOneRemoved(t0, slug, pk, t)
    ensures OnlyOneRemoved(t0, slug, pk, Deleted(t, pk))
    ensures OnlyOneRemoved(t0, slug, pk, Gone(Deleted(t, pk), slug))
  {
  }

  lemma TeardownFrame(t0: Tables, slug: string, kind: ProviderType, pk: nat, t: Tables)
    requires AppsDistinct(t0) && OwnerAt(t0, slug) == Owned(kind, pk) && TeardownStep(t0, slug, Owned(kind, pk), t)
    ensures OnlyOneRemoved(t0, slug, pk, t) && OnlyOneUnlisted(t0, pk, t)
    ensures HostsUnique(t0) ==> HostsUnique(t)
  {
    var stage :| t == StageOf(t0, slug, Owned(kind, pk), stage);
    hide AppsDistinct, OwnerAt, StageOf, OnlyOneRemoved, OnlyOneUnlisted, HostsUnique;
    StageFrame(t0, slug, kind, pk, stage);
    FewerProviders(t0, slug, pk, t);
  }

  lemma StageFrame(t0: Tables, slug: string, kind: ProviderType, pk: nat, stage: Stage)
    requires AppsDistinct(t0) && OwnerAt(t0, slug) == Owned(kind, pk)
    ensures var t := StageOf(t0, slug, Owned(kind, pk), stage); OnlyOneRemoved(t0, slug, pk, t) && OnlyOneUnlisted(t0, pk, t)
  {
    hide OnlyOneRemoved, OnlyOneUnlisted;
    DetachFrame(t0, pk);
    DetachedIsOff(t0, pk);
    DeleteFrame(t0, slug, kind, pk, t0);
    DeleteFrame(t0, slug, kind, pk, Detached(t0, pk));
    hide Detached, OwnerAt, AppsDistinct, Deleted, Gone;
    SameListsSameUnlisted(t0, slug, pk);
  }

  lemma SameListsSameUnlisted(t0: Tables, slug: string, pk: nat)
    ensures forall t | OnlyOneUnlisted(t0, pk, t) :: OnlyOneUnlisted(t0, pk, Deleted(t, pk)) && OnlyOneUnlisted(t0, pk, Gone(Deleted(t, pk), slug))
  {
    hide FindOutpost;
  }

  lemma FewerProviders(t0: Tables, slug: string, pk: nat, t: Tables)
    requires OnlyOneRemoved(t0, slug, pk, t)
    ensures HostsUnique(t0) ==> HostsUnique(t)
  {
  }

  /** A teardown that stopped after deleting the provider cannot be resumed: the application that
      is left points nowhere and counts as hand-made. */
  lemma StoppedHalfwayIsStranded(t0: Tables, slug: string, kind: ProviderType, pk: nat)
    requires OwnerAt(t0, slug) == Owned(kind, pk)
    ensures slug in StageOf(t0, slug, Owned(kind, pk), Unprovided).apps && pk !in StageOf(t0, slug, Owned(kind, pk), Unprovided).providers
    ensures OwnerAt(StageOf(t0, slug, Owned(kind, pk), Unprovided), slug).Unowned?
    // Before that it can.
    ensures OwnerAt(StageOf(t0, slug, Owned(kind, pk), Unlisted), slug) == Owned(kind, pk)
  {
  }

  /** In every state of a teardown the application is still aboard's exactly when the provider is still
      there. */
  lemma OwnedWhileProvided(t0: Tables, slug: string, kind: ProviderType, pk: nat, t: Tables)
    requires OwnerAt(t0, slug) == Owned(kind, pk) && TeardownStep(t0, slug, Owned(kind, pk), t)
    ensures OwnerAt(t, slug).Owned? <==> pk in t.providers
    ensures pk in t.providers ==> OwnerAt(t, slug) == Owned(kind, pk)
  {
    DetachedIsOff(t0, pk);
    var stage :| t == StageOf(t0, slug, Owned(kind, pk), stage);
    hide FindOutpost, Detached;
  }

  /** Resuming ends where an undisturbed teardown ends. */
  lemma ResumedEndsTheSame(t0: Tables, slug: string, kind: ProviderType, pk: nat, t: Tables)
    requires OwnerAt(t0, slug) == Owned(kind, pk) && TeardownStep(t0, slug, Owned(kind, pk), t) && pk in t.providers
    ensures StageOf(t, slug, Owned(kind, pk), Finished) == StageOf(t0, slug, Owned(kind, pk), Finished)
  {
    DetachedIsOff(t0, pk);
    AlreadyDetached(Detached(t0, pk), pk);
    var stage :| t == StageOf(t0, slug, Owned(kind, pk), stage);
    hide FindOutpost, Detached;
  }

  lemma DetachApplies(t: Tables, pk: nat, kept: seq<nat>)
    requires FindOutpost(t.outposts, EMBEDDED).Some?
    requires kept == Without(t.outposts[FindOutpost(t.outposts, EMBEDDED).value].providers, pk)
    ensures Apply(t, PatchOutpost(FindOutpost(t.outposts, EMBEDDED).value, kept)) == Applied(Detached(t, pk), FindOutpost(t.outposts, EMBEDDED).value)
  {
  }

  lemma {:induction false} NothingToRemove(list: seq<nat>, pk: nat)
    requires pk !in list
    ensures Without(list, pk) == list
  {
    if list != [] {
      NothingToRemove(list[..|list| - 1], pk);
    }
  }

  lemma AlreadyDetached(t: Tables, pk: nat)
    requires !OnEmbedded(t, pk)
    ensures Detached(t, pk) == t
  {
    var o := FindOutpost(t.outposts, EMBEDDED);
    if o.Some? {
      NothingToRemove(t.outposts[o.value].providers, pk);
      assert t.outposts[o.value := t.outposts[o.value]] == t.outposts;
    }
  }

  ghost function DetachRequests(t: Tables, pk: nat): nat {
    if OnEmbedded(t, pk) then 2 else 1
  }

  /** How many requests a teardown makes before it deletes the application. */
  ghost function RequestsBefore(t: Tables, own: Ownership): nat
    requires own.Owned?
  {
    2 + LookupsFor(own.kind) + if own.kind.ForwardAuth? then DetachRequests(t, own.pk) else 0
  }

  /** Takes the provider off the embedded outpost's list, if it is on it. */
  method DetachFromEmbedded(api: Server, pk: nat) returns (err: Option<Code>)
    requires api.Valid()
    modifies api`tables, api`calls, api`trace
    ensures api.Valid() && old(api.trace) <= api.trace && old(api.calls) <= api.calls
    ensures forall i | |old(api.trace)| <= i < |api.trace| :: api.trace[i].after in {old(api.tables), Detached(old(api.tables), pk)}
    ensures api.tables in {old(api.tables), Detached(old(api.tables), pk)}
    ensures err.None? ==> api.tables == Detached(old(api.tables), pk)
    ensures err in {None, Some(ApiError)} && (Calm(api.env, old(api.calls)) ==> err.None?)
    ensures AllWork(api.env, old(api.calls), DetachRequests(old(api.tables), pk)) ==>
              err.None? && api.calls == old(api.calls) + DetachRequests(old(api.tables), pk)
  {
    hide WellFormed, Apply;
    var found := api.Fetch(FindOutpost(api.tables.outposts, EMBEDDED));
    if found.Unreachable? {
      return Some(ApiError);
    }
    if found.value.None? {
      return None;
    }
    var o := found.value.value;
    var list := api.tables.outposts[o].providers;
    if pk !in list {
      AlreadyDetached(api.tables, pk);
      return None;
    }
    var kept := [];
    for i := 0 to |list|
      invariant kept == Without(list[..i], pk)
    {
      assert list[..i + 1][..i] == list[..i];
      if list[i] != pk {
        kept := kept + [list[i]];
      }
    }
    assert list[..|list|] == list;
    DetachApplies(api.tables, pk, kept);
    var patched := api.Commit(PatchOutpost(o, kept));
    err := if patched.Written? then None else Some(ApiError);
  }

  lemma StagesFollow(t0: Tables, slug: string, kind: ProviderType, pk: nat)
    requires OwnerAt(t0, slug) == Owned(kind, pk)
    ensures forall stage :: TeardownStep(t0, slug, Owned(kind, pk), StageOf(t0, slug, Owned(kind, pk), stage))
    ensures StageOf(t0, slug, Owned(kind, pk), Untouched) == t0
    ensures StageOf(t0, slug, Owned(kind, pk), Unlisted) == if kind.ForwardAuth? then Detached(t0, pk) else t0
    ensures Apply(StageOf(t0, slug, Owned(kind, pk), Unlisted), DeleteProvider(EndpointOf(kind), pk))
              == Applied(StageOf(t0, slug, Owned(kind, pk), Unprovided), pk)
    ensures Apply(StageOf(t0, slug, Owned(kind, pk), Unprovided), DeleteApp(slug)).Applied?
    ensures Apply(StageOf(t0, slug, Owned(kind, pk), Unprovided), DeleteApp(slug)).tables == StageOf(t0, slug, Owned(kind, pk), Finished)
  {
    DetachedIsOff(t0, pk);
    hide FindOutpost, Detached;
  }

  lemma ReadsAreStages(t0: Tables, slug: string, own: Ownership, trace: seq<Entry>, n: nat)
    requires Reads(trace, n, t0)
    ensures TeardownSteps(t0, slug, own, trace, n) && TeardownStep(t0, slug, own, t0)
  {
    assert t0 == StageOf(t0, slug, own, Untouched);
  }

  /** Deletes an aboard-owned application: off the outpost, then the provider, then the
      application, stopping at the first failure. A hand-made application is refused. */
  method Teardown(api: Server, slug: string) returns (err: Option<Code>)
    requires api.Valid()
    modifies api`tables, api`calls, api`trace
    ensures api.Valid() && old(api.trace) <= api.trace && old(api.calls) <= api.calls
    ensures TeardownSteps(old(api.tables), slug, OwnerAt(old(api.tables), slug), api.trace, |old(api.trace)|)
    ensures TeardownStep(old(api.tables), slug, OwnerAt(old(api.tables), slug), api.tables)
    ensures err.None? ==> OwnerAt(old(api.tables), slug).Owned?
                          && api.tables == StageOf(old(api.tables), slug, OwnerAt(old(api.tables), slug), Finished)
    // Then application, provider and its place on the embedded list are gone.
    ensures err.None? ==> slug !in api.tables.apps && OwnerAt(old(api.tables), slug).pk !in api.tables.providers
                          && (OwnerAt(old(api.tables), slug).kind.ForwardAuth? ==> !OnEmbedded(api.tables, OwnerAt(old(api.tables), slug).pk))
    ensures err == Some(AdoptConflict) ==> slug in old(api.tables).apps && OwnerAt(old(api.tables), slug).Unowned?
    ensures err in {None, Some(ApiError), Some(AdoptConflict)}
    ensures Calm(api.env, old(api.calls)) ==>
              (err.None? <==> OwnerAt(old(api.tables), slug).Owned?)
              && (err == Some(AdoptConflict) <==> slug in old(api.tables).apps && OwnerAt(old(api.tables), slug).Unowned?)
    // When just the last request is lost, the application is left without its provider.
    ensures var own := OwnerAt(old(api.tables), slug);
            own.Owned? && AllWork(api.env, old(api.calls), RequestsBefore(old(api.tables), own))
            && api.env.fault(old(api.calls) + RequestsBefore(old(api.tables), own)).Down? ==>
              err == Some(ApiError) && api.tables == StageOf(old(api.tables), slug, own, Unprovided)
              && api.calls == old(api.calls) + RequestsBefore(old(api.tables), own) + 1
  {
    hide WellFormed, Apply, StageOf, TeardownStep, FindOutpost, Detached, DetachRequests, OwnerOf, OnEmbedded;
    ghost var t0, n := api.tables, |api.trace|;
    var found := api.Fetch(Lookup(api.tables.apps, slug));
    ReadsAreStages(t0, slug, OwnerAt(t0, slug), api.trace, n);
    if found.Unreachable? || found.value.None? {
      return Some(ApiError);
    }
    var own := ResolveOwnership(api, slug, found.value.value);
    ReadsAreStages(t0, slug, OwnerAt(t0, slug), api.trace, n);
    if own.Unreachable? {
      return Some(ApiError);
    }
    if own.value.Unowned? {
      return Some(AdoptConflict);
    }
    var kind, pk := own.value.kind, own.value.pk;
    StagesFollow(t0, slug, kind, pk);
    if kind.ForwardAuth? {
      err := DetachFromEmbedded(api, pk);
      if err.Some? {
        return;
      }
    }
    err := DeleteOwned(api, t0, slug, kind, pk);
    FinishedIsGone(t0, slug, kind, pk);
  }

  lemma FinishedIsGone(t0: Tables, slug: string, kind: ProviderType, pk: nat)
    requires OwnerAt(t0, slug) == Owned(kind, pk)
    ensures var t := StageOf(t0, slug, Owned(kind, pk), Finished);
            slug !in t.apps && pk !in t.providers && (kind.ForwardAuth? ==> !OnEmbedded(t, pk))
  {
    StagesFollow(t0, slug, kind, pk);
    TeardownOrder(t0, slug, kind, pk, StageOf(t0, slug, Owned(kind, pk), Finished));
    hide FindOutpost, Detached, OwnerOf;
  }

  /** Deletes the provider, then the application that pointed at it. */
  method DeleteOwned(api: Server, ghost t0: Tables, slug: string, kind: ProviderType, pk: nat) returns (err: Option<Code>)
    requires api.Valid() && OwnerAt(t0, slug) == Owned(kind, pk) && api.tables == StageOf(t0, slug, Owned(kind, pk), Unlisted)
    modifies api`tables, api`calls, api`trace
    ensures api.Valid() && old(api.trace) <= api.trace && old(api.calls) <= api.calls
    ensures TeardownSteps(t0, slug, Owned(kind, pk), api.trace, |old(api.trace)|) && TeardownStep(t0, slug, Owned(kind, pk), api.tables)
    ensures err.None? ==> api.tables == StageOf(t0, slug, Owned(kind, pk), Finished)
    ensures err in {None, Some(ApiError)} && (Calm(api.env, old(api.calls)) ==> err.None?)
    ensures api.env.fault(old(api.calls)).Works? && api.env.fault(old(api.calls) + 1).Down? ==>
              err == Some(ApiError) && api.tables == StageOf(t0, slug, Owned(kind, pk), Unprovided) && api.calls == old(api.calls) + 2
  {
    hide WellFormed, Apply, StageOf, TeardownStep, FindOutpost, Detached, OwnerOf;
    StagesFollow(t0, slug, kind, pk);
    var deleted := api.Commit(DeleteProvider(EndpointOf(kind), pk));
    if deleted.Failed? {
      return Some(ApiError);
    }
    var removed := api.Commit(DeleteApp(slug));
    err := if removed.Failed? then Some(ApiError) else None;
  }

  // The scan.

  datatype Orphan = Orphan(slug: string, kind: ProviderType, pk: nat, attached: bool)

  /** The slug of the application the provider is assigned to, empty when there is none. */
  ghost predicate Assigned(t: Tables, pk: nat, slug: string) {
    if exists a :: a in t.apps && t.apps[a].provider == Some(pk) then slug in t.apps && t.apps[slug].provider == Some(pk)
    else slug == ""
  }

  /** Named as aboard's, with no enabled application in front of it. */
  ghost predicate IsOrphan(t: Tables, enabled: seq<string>, pk: nat) {
    && pk in t.providers && IsAboardName(t.providers[pk].name)
    && forall a | a in t.apps && t.apps[a].provider == Some(pk) && a != "" :: a !in enabled
  }

  ghost predicate Describes(t: Tables, o: Orphan) {
    && o.pk in t.providers && o.kind == KindOf(t.providers[o.pk].component)
    && Assigned(t, o.pk, o.slug) && (o.attached <==> OnEmbedded(t, o.pk))
  }

  /** The listing's own column: which application the provider is assigned to. */
  method AssignedSlug(t: Tables, pk: nat) returns (slug: string)
    ensures Assigned(t, pk, slug)
  {
    slug := "";
    if exists a :: a in t.apps && t.apps[a].provider == Some(pk) {
      slug :| slug in t.apps && t.apps[slug].provider == Some(pk);
    }
  }

  /** The comparison the scan sorts by: OIDC before the rest, then slugs within one kind. Across
      forward-auth and SAML it orders nothing, so it is not a weak order. */
  predicate Earlier(a: Orphan, b: Orphan) {
    if a.kind != b.kind then a.kind.Oidc? else Below(a.slug, b.slug)
  }

  predicate Unrelated(a: Orphan, b: Orphan) {
    !Earlier(a, b) && !Earlier(b, a)
  }

  /** Unrelated pairs do not chain. */
  lemma EarlierIsNotAWeakOrder()
    ensures var a, b, c := Orphan("b", ForwardAuth, 1, false), Orphan("z", Saml, 2, false), Orphan("a", ForwardAuth, 3, false);
            Unrelated(a, b) && Unrelated(b, c) && !Unrelated(a, c) && Earlier(c, a)
  {
    assert Below("a", "b");
  }

  ghost predicate Chains(s: seq<Orphan>) {
    forall a, b, c | a in s && b in s && c in s && Unrelated(a, b) && Unrelated(b, c) :: Unrelated(a, c)
  }

  /** Where two types other than OIDC meet, each has one slug only. */
  ghost predicate OneSlugWhereTypesMeet(s: seq<Orphan>) {
    forall a, b, c | a in s && b in s && c in s && a.kind != b.kind && !a.kind.Oidc? && !b.kind.Oidc? && c.kind == a.kind :: a.slug == c.slug
  }

  /** On a list the comparison is a weak order exactly under this condition, which can be read off
      before the sort. */
  lemma ChainsExactlyWhen(s: seq<Orphan>)
    ensures Chains(s) <==> OneSlugWhereTypesMeet(s)
  {
    forall a: Orphan, b: Orphan ensures a.kind == b.kind ==> (Unrelated(a, b) <==> a.slug == b.slug) {
      BelowIsTotal(a.slug, b.slug);
      BelowIsStrict(a.slug, b.slug, a.slug);
    }
    hide Below;
    if Chains(s) {
      forall a, b, c | a in s && b in s && c in s && a.kind != b.kind && !a.kind.Oidc? && !b.kind.Oidc? && c.kind == a.kind
        ensures a.slug == c.slug
      {
        assert Unrelated(a, b) && Unrelated(b, c);
      }
    }
  }

  /** No provider is listed twice. */
  ghost predicate OncePerProvider(s: seq<Orphan>) {
    forall i, j | 0 <= i < j < |s| :: s[i].pk != s[j].pk
  }

  ghost predicate LiveCredentialsFirst(s: seq<Orphan>) {
    forall i, j | 0 <= i < j < |s| && s[j].kind.Oidc? :: s[i].kind.Oidc?
  }

  ghost predicate NoAdjacentInversion(s: seq<Orphan>) {
    forall i | 0 < i < |s| :: !Earlier(s[i], s[i - 1])
  }

  /** Any sort that leaves no neighbours the wrong way round puts the live credentials first, and
      those by slug, even though the comparison is not a weak order. */
  lemma {:induction false} OidcFirst(s: seq<Orphan>, i: nat, j: nat)
    requires NoAdjacentInversion(s) && i < j < |s| && s[j].kind.Oidc?
    ensures s[i].kind.Oidc? && !Below(s[j].slug, s[i].slug)
    decreases j - i
  {
    assert !Earlier(s[j], s[j - 1]);
    if i < j - 1 {
      OidcFirst(s, i, j - 1);
      BelowIsStrict(s[i].slug, s[j - 1].slug, s[j].slug);
    }
  }

  /** Under that condition nothing at all stands behind a later one, whatever its type. */
  lemma {:induction false} SortedThroughout(s: seq<Orphan>, i: nat, j: nat)
    requires NoAdjacentInversion(s) && OneSlugWhereTypesMeet(s) && i < j < |s|
    ensures !Earlier(s[j], s[i])
    decreases j - i
  {
    if i < j - 1 {
      SortedThroughout(s, i, j - 1);
      NeitherThenNeither(s, s[i], s[j - 1], s[j]);
    }
  }

  lemma NeitherThenNeither(s: seq<Orphan>, a: Orphan, b: Orphan, c: Orphan)
    requires OneSlugWhereTypesMeet(s) && a in s && b in s && c in s && !Earlier(b, a) && !Earlier(c, b)
    ensures !Earlier(c, a)
  {
    BelowIsStrict(a.slug, b.slug, c.slug);
    BelowIsStrict(c.slug, a.slug, c.slug);
    BelowIsTotal(a.slug, b.slug);
    BelowIsTotal(b.slug, c.slug);
  }

  lemma EarlierIsAsymmetric(a: Orphan, b: Orphan)
    ensures !(Earlier(a, b) && Earlier(b, a))
  {
    BelowIsStrict(a.slug, b.slug, a.slug);
  }

  ghost predicate Inserted(s: seq<Orphan>, o: Orphan, r: seq<Orphan>) {
    exists k | 0 <= k <= |s| :: r == s[..k] + [o] + s[k..]
  }

  /** Inserts one orphan behind the last one it is not earlier than. */
  method Insert(s: seq<Orphan>, o: Orphan) returns (r: seq<Orphan>)
    requires NoAdjacentInversion(s)
    ensures NoAdjacentInversion(r) && Inserted(s, o, r)
  {
    var k := |s|;
    while k > 0 && Earlier(o, s[k - 1])
      invariant 0 <= k <= |s| && (k < |s| ==> Earlier(o, s[k]))
    {
      k := k - 1;
    }
    if k < |s| {
      EarlierIsAsymmetric(o, s[k]);
    }
    r := s[..k] + [o] + s[k..];
    forall i | 0 < i < |r| ensures !Earlier(r[i], r[i - 1]) {
      assert i > k + 1 ==> r[i] == s[i - 1] && r[i - 1] == s[i - 2];
    }
  }

  method SortOrphans(found: seq<Orphan>) returns (sorted: seq<Orphan>)
    ensures NoAdjacentInversion(sorted) && multiset(sorted) == multiset(found)
    ensures OncePerProvider(found) ==> OncePerProvider(sorted)
  {
    hide OncePerProvider, NoAdjacentInversion, Inserted;
    NoneTwice();
    sorted := [];
    for i := 0 to |found|
      invariant NoAdjacentInversion(sorted) && multiset(sorted) == multiset(found[..i])
      invariant OncePerProvider(found) ==> OncePerProvider(sorted)
    {
      ghost var before := sorted;
      sorted := Insert(sorted, found[i]);
      OneMoreSorted(found, i, before, sorted);
      if OncePerProvider(found) {
        StillOnce(found, i, before, sorted);
      }
    }
    assert found[..|found|] == found;
  }

  lemma OneMoreSorted(found: seq<Orphan>, i: nat, before: seq<Orphan>, sorted: seq<Orphan>)
    requires i < |found| && multiset(before) == multiset(found[..i]) && Inserted(before, found[i], sorted)
    ensures multiset(sorted) == multiset(found[..i + 1])
  {
    var k :| 0 <= k <= |before| && sorted == before[..k] + [found[i]] + before[k..];
    assert before == before[..k] + before[k..];
    InsertedMembers(before[..k], found[i], before[k..]);
    assert found[..i + 1] == found[..i] + [found[i]];
    hide Inserted;
  }

  lemma InsertedMembers(a: seq<Orphan>, o: Orphan, b: seq<Orphan>)
    ensures multiset(a + [o] + b) == multiset(a + b) + multiset{o}
  {
  }

  lemma StillOnce(found: seq<Orphan>, i: nat, before: seq<Orphan>, sorted: seq<Orphan>)
    requires i < |found| && multiset(before) == multiset(found[..i]) && Inserted(before, found[i], sorted)
    requires OncePerProvider(found) && OncePerProvider(before)
    ensures OncePerProvider(sorted)
  {
    var k :| 0 <= k <= |before| && sorted == before[..k] + [found[i]] + before[k..];
    SameMembers(before, found[..i]);
    NotBefore(found, i);
    InsertedOnce(before, k, found[i], found[..i]);
  }

  lemma NoneTwice()
    ensures OncePerProvider([]) && NoAdjacentInversion([])
  {
  }

  lemma NotBefore(found: seq<Orphan>, i: nat)
    requires OncePerProvider(found) && i < |found|
    ensures forall j | 0 <= j < |found[..i]| :: found[..i][j].pk != found[i].pk
  {
  }

  lemma InsertedOnce(s: seq<Orphan>, k: nat, o: Orphan, listed: seq<Orphan>)
    requires k <= |s| && OncePerProvider(s) && (forall x :: x in s <==> x in listed)
    requires forall i | 0 <= i < |listed| :: listed[i].pk != o.pk
    ensures OncePerProvider(s[..k] + [o] + s[k..])
  {
    forall i | 0 <= i < |s| ensures s[i].pk != o.pk {
      assert s[i] in s && s[i] in listed;
    }
  }

  lemma OrphanIff(t: Tables, enabled: seq<string>, pk: nat, slug: string)
    requires AppsDistinct(t) && pk in t.providers && Assigned(t, pk, slug)
    ensures IsOrphan(t, enabled, pk) <==> IsAboardName(t.providers[pk].name) && !(slug != "" && slug in enabled)
  {
  }

  lemma SameMembers(a: seq<Orphan>, b: seq<Orphan>)
    requires multiset(a) == multiset(b)
    ensures forall x :: x in a <==> x in b
  {
    forall x ensures x in a <==> x in b {
      assert x in multiset(a) <==> x in multiset(b);
    }
  }

  /** What the scan has found among the rows it has gone through. */
  ghost predicate Collected(t: Tables, enabled: seq<string>, rows: seq<nat>, found: seq<Orphan>) {
    && (forall o | o in found :: o.pk in rows && Describes(t, o) && IsOrphan(t, enabled, o.pk))
    && (forall p | p in rows && IsOrphan(t, enabled, p) :: exists o :: o in found && o.pk == p)
    && OncePerProvider(found)
  }

  lemma CollectOne(t: Tables, enabled: seq<string>, rows: seq<nat>, found: seq<Orphan>, pk: nat, o: Orphan)
    requires Collected(t, enabled, rows, found) && pk !in rows && o.pk == pk && Describes(t, o)
    ensures Collected(t, enabled, rows + [pk], if IsOrphan(t, enabled, pk) then found + [o] else found)
  {
    hide Describes, IsOrphan;
    assert forall i | 0 <= i < |found| :: found[i] in found;
    assert forall x | x in found :: x in found + [o];
    assert o in found + [o];
  }

  method CollectOrphans(t: Tables, enabled: seq<string>, rows: seq<nat>, attached: seq<nat>) returns (found: seq<Orphan>)
    requires AppsDistinct(t) && (forall p :: p in attached <==> OnEmbedded(t, p))
    requires forall i | 0 <= i < |rows| :: rows[i] in t.providers
    requires forall i, j | 0 <= i < j < |rows| :: rows[i] != rows[j]
    ensures Collected(t, enabled, rows, found)
  {
    hide IsOrphan, AppsDistinct, OnEmbedded, IsAboardName, Assigned, Collected;
    found := [];
    NothingCollected(t, enabled);
    for i := 0 to |rows|
      invariant Collected(t, enabled, rows[..i], found)
    {
      var pk := rows[i];
      assert rows[..i + 1] == rows[..i] + [pk] && pk !in rows[..i];
      var slug := AssignedSlug(t, pk);
      OrphanIff(t, enabled, pk, slug);
      var o := Orphan(slug, KindOf(t.providers[pk].component), pk, pk in attached);
      CollectOne(t, enabled, rows[..i], found, pk, o);
      if IsAboardName(t.providers[pk].name) && !(slug != "" && slug in enabled) {
        found := found + [o];
      }
    }
    assert rows[..|rows|] == rows;
  }

  lemma NothingCollected(t: Tables, enabled: seq<string>)
    ensures Collected(t, enabled, [], [])
  {
  }

  /** Every orphan once, described, live credentials first. Reads only. */
  method Orphans(api: Server, enabled: seq<string>) returns (r: Reply<seq<Orphan>>)
    requires api.Valid()
    modifies api`calls, api`trace
    ensures Looked(api, r.Answer?)
    ensures r.Answer? ==> forall o | o in r.value :: Describes(api.tables, o) && IsOrphan(api.tables, enabled, o.pk)
    ensures r.Answer? ==> forall p | IsOrphan(api.tables, enabled, p) :: exists o :: o in r.value && o.pk == p
    ensures r.Answer? ==> OncePerProvider(r.value) && LiveCredentialsFirst(r.value)
    // Listed is what bears the suffix and has no enabled application in front of it, and nothing else.
    ensures r.Answer? ==> forall p :: (exists o :: o in r.value && o.pk == p) <==>
                p in api.tables.providers && (exists slug: string :: api.tables.providers[p].name == slug + " (aboard)")
                && forall a | a in api.tables.apps && api.tables.apps[a].provider == Some(p) && a != "" :: a !in enabled
  {
    hide FindOutpost, IsAboardName, WellFormed, Describes, AppsDistinct;
    var page := api.List(All);
    if page.Unreachable? {
      return Unreachable;
    }
    var embedded := api.Fetch(FindOutpost(api.tables.outposts, EMBEDDED));
    if embedded.Unreachable? {
      return Unreachable;
    }
    var attached := if embedded.value.Some? then api.tables.outposts[embedded.value.value].providers else [];
    Distinct(api);
    var found := CollectOrphans(api.tables, enabled, page.value, attached);
    forall p | IsOrphan(api.tables, enabled, p) ensures p in page.value {
      assert Reachable(api.tables, All, p);
    }
    hide IsOrphan;
    var sorted := SortOrphans(found);
    SameMembers(sorted, found);
    forall i, j | 0 <= i < j < |sorted| && sorted[j].kind.Oidc? ensures sorted[i].kind.Oidc? {
      OidcFirst(sorted, i, j);
    }
    r := Answer(sorted);
    forall p ensures IsOrphan(api.tables, enabled, p) <==>
                       p in api.tables.providers && (exists slug: string :: api.tables.providers[p].name == slug + " (aboard)")
                       && forall a | a in api.tables.apps && api.tables.apps[a].provider == Some(p) && a != "" :: a !in enabled
    {
      OrphanAsWritten(api.tables, enabled, p);
    }
  }

  lemma OrphanAsWritten(t: Tables, enabled: seq<string>, p: nat)
    ensures IsOrphan(t, enabled, p) <==>
              p in t.providers && (exists slug: string :: t.providers[p].name == slug + " (aboard)")
              && forall a | a in t.apps && t.apps[a].provider == Some(p) && a != "" :: a !in enabled
  {
    if p in t.providers {
      AboardNames(t.providers[p].name);
    }
  }

  lemma Distinct(api: Server)
    requires api.Valid()
    ensures AppsDistinct(api.tables)
  {
  }

  // Scan and teardown together.

  /** The scan goes by the name's suffix and teardown by the name the slug gives. A reported orphan
      can be torn down by its slug exactly when the two agree. */
  lemma OrphanIsOwned(t: Tables, enabled: seq<string>, o: Orphan)
    requires Describes(t, o) && IsOrphan(t, enabled, o.pk)
    ensures OwnerAt(t, o.slug) == Owned(o.kind, o.pk) <==>
              o.slug in t.apps && t.apps[o.slug].provider == Some(o.pk)
              && t.providers[o.pk].name == Marker(o.slug) && !o.kind.Unrecognised?
  {
  }

  /** Tearing an owned orphan down takes it, and nothing else, off the next scan. */
  lemma TeardownRemovesOneOrphan(t: Tables, enabled: seq<string>, slug: string, kind: ProviderType, pk: nat, p: nat)
    requires AppsDistinct(t) && OwnerAt(t, slug) == Owned(kind, pk)
    ensures IsOrphan(StageOf(t, slug, Owned(kind, pk), Finished), enabled, p) <==> IsOrphan(t, enabled, p) && p != pk
  {
    var after := StageOf(t, slug, Owned(kind, pk), Finished);
    DetachedIsOff(t, pk);
    hide FindOutpost, Detached, IsAboardName;
    forall a | a in t.apps && t.apps[a].provider == Some(p) && p != pk
      ensures a in after.apps && after.apps[a].provider == Some(p)
    {
      assert a != slug;
    }
  }

  // A teardown that strands its application.

  /** A teardown with any faults, and then another. When the second meets none it finishes the work
      exactly when the provider is still there, and otherwise refuses the application that is left, or
      finds none. */
  method TeardownAgain(api: Server, slug: string) returns (first: Option<Code>, second: Option<Code>, ghost between: Tables, ghost calls: nat)
    requires api.Valid() && OwnerAt(api.tables, slug).Owned?
    modifies api`tables, api`calls, api`trace
    ensures api.Valid() && old(api.calls) <= calls <= api.calls
    ensures TeardownStep(old(api.tables), slug, OwnerAt(old(api.tables), slug), between)
    ensures first.None? ==> between == StageOf(old(api.tables), slug, OwnerAt(old(api.tables), slug), Finished)
    ensures Calm(api.env, old(api.calls)) ==> first.None?
    ensures Calm(api.env, calls) ==>
              && (second.None? <==> OwnerAt(old(api.tables), slug).pk in between.providers)
              && (second == Some(AdoptConflict) <==> slug in between.apps && OwnerAt(old(api.tables), slug).pk !in between.providers)
              && (second == Some(ApiError) <==> slug !in between.apps)
              && api.tables == if second.None? then StageOf(old(api.tables), slug, OwnerAt(old(api.tables), slug), Finished) else between
  {
    hide WellFormed, StageOf, FindOutpost, Detached, OwnerOf, TeardownStep, TeardownSteps;
    ghost var t0, own := api.tables, OwnerAt(api.tables, slug);
    first := Teardown(api, slug);
    between, calls := api.tables, api.calls;
    OwnedWhileProvided(t0, slug, own.kind, own.pk, between);
    TeardownOrder(t0, slug, own.kind, own.pk, between);
    UnownedStays(between, slug);
    if own.pk in between.providers {
      ResumedEndsTheSame(t0, slug, own.kind, own.pk, between);
    }
    second := Teardown(api, slug);
  }

  /** A teardown whose last request is lost, and then another without failures: the first deletes the
      provider and reports an error, the second refuses, and the application stays. */
  method TeardownTwice(api: Server, slug: string) returns (first: Option<Code>, second: Option<Code>)
    requires api.Valid() && OwnerAt(api.tables, slug).Owned?
    requires var last := api.calls + RequestsBefore(api.tables, OwnerAt(api.tables, slug));
             api.env.fault(last).Down? && AllWork(api.env, api.calls, last - api.calls) && Calm(api.env, last + 1)
    modifies api`tables, api`calls, api`trace
    ensures first == Some(ApiError) && second == Some(AdoptConflict)
    ensures slug in api.tables.apps && OwnerAt(old(api.tables), slug).pk !in api.tables.providers
    ensures api.tables == StageOf(old(api.tables), slug, OwnerAt(old(api.tables), slug), Unprovided)
  {
    hide WellFormed, StageOf, FindOutpost, Detached, OwnerOf;
    ghost var own := OwnerAt(api.tables, slug);
    StoppedHalfwayIsStranded(api.tables, slug, own.kind, own.pk);
    first := Teardown(api, slug);
    ghost var stranded := api.tables;
    UnownedStays(stranded, slug);
    second := Teardown(api, slug);
  }

  lemma UnownedStays(t: Tables, slug: string)
    ensures forall u | TeardownStep(t, slug, Unowned, u) :: u == t
  {
  }

  /** One forward-auth application on the embedded outpost. */
  const LONE: Tables :=
    Tables(map[0 := Provider(ProxyForm, Marker("app"), "https://h", map[], [])],
           map["app" := Application(1, "App", Some(0), "any", map[])], map[], map[], [Outpost("embedded", true, [0])], 2)

  lemma LoneIsOwned()
    ensures WellFormed(LONE) && OwnerAt(LONE, "app") == Owned(ForwardAuth, 0) && OnEmbedded(LONE, 0)
    ensures RequestsBefore(LONE, OwnerAt(LONE, "app")) == 5
  {
    assert FindOutpost(LONE.outposts[..0], EMBEDDED) == None;
    assert FindOutpost(LONE.outposts, EMBEDDED) == Some(0);
  }

  /** Such a run: the sixth request, which deletes the application, never arrives. */
  method Stranded() returns (api: Server, first: Option<Code>, second: Option<Code>)
    ensures first == Some(ApiError) && second == Some(AdoptConflict)
    ensures "app" in api.tables.apps && 0 !in api.tables.providers
  {
    LoneIsOwned();
    hide WellFormed, OwnerAt, RequestsBefore, StageOf, LONE;
    var lib := Library(map[], map[], map[], None, map[], map[], []);
    var env := Env(k => if k == 5 then Down else Works, (host, clock) => true, clock => true);
    api := new Server(LONE, lib, env);
    first, second := TeardownTwice(api, "app");
  }
}
