/** What a reconcile of one app does to the others: nothing that is converged moves, and nothing that
    could be reconciled stops being so. */
module Neighbours {
  import opened Options
  import opened Authentik
  import opened Desired
  import opened Bindings
  import opened Law
  import opened Reconciler

  /** A provider the reconcile changed was its own before, too. */
  lemma OthersRow(s: Spec, other: Spec, t0: Tables, t: Tables, p: nat)
    requires AppsDistinct(t0) && OthersUntouched(t0, s.slug, t) && other.slug != s.slug && p in t0.providers
    requires t0.providers[p].name == Marker(other.slug) && !(s.slug in t0.apps && t0.apps[s.slug].provider == Some(p))
    ensures p in t.providers && t.providers[p] == t0.providers[p]
  {
    if Marker(s.slug) == Marker(other.slug) {
      MarkerIsInjective(s.slug, other.slug);
    }
  }

  lemma OthersBindings(s: Spec, other: Spec, t0: Tables, t: Tables, wanted: seq<Key>)
    requires WellFormed(t0) && OthersUntouched(t0, s.slug, t) && other.slug != s.slug && other.slug in t0.apps
    ensures other.slug in t.apps && t.apps[other.slug] == t0.apps[other.slug]
    ensures forall b :: b in t.bindings && t.bindings[b].target == t0.apps[other.slug].pk <==>
                b in t0.bindings && t0.bindings[b].target == t0.apps[other.slug].pk
    ensures forall b | b in t.bindings && t.bindings[b].target == t0.apps[other.slug].pk :: b in t0.bindings && t.bindings[b] == t0.bindings[b]
    ensures ExactlyBound(t.bindings, t0.apps[other.slug].pk, wanted) <==> ExactlyBound(t0.bindings, t0.apps[other.slug].pk, wanted)
  {
    SameBindings(t0.bindings, t.bindings, t0.apps[other.slug].pk, wanted);
  }

  lemma SameBindings(before: map<nat, Binding>, after: map<nat, Binding>, app: nat, wanted: seq<Key>)
    requires forall b :: b in after && after[b].target == app <==> b in before && before[b].target == app
    requires forall b | b in after && after[b].target == app :: b in before && after[b] == before[b]
    ensures ExactlyBound(after, app, wanted) <==> ExactlyBound(before, app, wanted)
  {
    forall k ensures Bound(after, app, k) <==> Bound(before, app, k) {
      if b :| b in before && before[b].target == app && KeyOf(before[b]) == Some(k) {
        assert b in after && after[b] == before[b];
      }
      if b :| b in after && after[b].target == app && KeyOf(after[b]) == Some(k) {
        assert b in before;
      }
    }
    hide Bound, KeyOf;
  }

  /** Groups that exist keep their pks, so names that resolved resolve to the same keys. */
  lemma SameKeys(cfg: Config, lib: Library, s: Spec, before: map<string, string>, after: map<string, string>)
    requires forall g | g in before :: g in after && after[g] == before[g]
    ensures Resolvable(cfg, lib, s, before) ==>
              Resolvable(cfg, lib, s, after) && WantedKeys(cfg, lib, s, after) == WantedKeys(cfg, lib, s, before)
  {
    if Resolvable(cfg, lib, s, before) {
      assert GroupKeys(EffectiveGroups(cfg, s), after) == GroupKeys(EffectiveGroups(cfg, s), before);
    }
  }

  /** In every state of a reconcile an app that was converged and is not the one reconciled still is. */
  lemma OthersStayConverged(cfg: Config, lib: Library, s: Spec, other: Spec, t0: Tables, e: Entry)
    requires WellFormed(t0) && Lawful(cfg, lib, s, t0, e) && other.slug != s.slug && Converged(cfg, lib, other, t0)
    ensures Converged(cfg, lib, other, e.after)
  {
    hide Marker, ExactlyBound, WantedKeys, Resolvable, DesiredBody, Overlay, OverlayApp, FindOutpost, HostsUnique, AccessKept, RowIsOwn,
         LinkIsOwn, RightlyTyped, GroupsAsked, NamesUnique, RowsBelow, GroupsReal;
    var t, app := e.after, t0.apps[other.slug];
    assert t0.providers[app.provider.value].name == Marker(other.slug);
    OthersRow(s, other, t0, t, app.provider.value);
    OthersBindings(s, other, t0, t, WantedKeys(cfg, lib, other, t0.groups));
    SameKeys(cfg, lib, other, t0.groups, t.groups);
    SameNamesSameFind(t0.outposts, t.outposts, OutpostName(cfg, other));
  }

  /** The other app's ownership, and what its adoption would take over, stay as they are. */
  lemma OthersOwnership(s: Spec, other: Spec, t0: Tables, t: Tables)
    requires WellFormed(t0) && OthersUntouched(t0, s.slug, t) && RowIsOwn(t0, s, t) && other.slug != s.slug
    ensures other.slug in t.apps <==> other.slug in t0.apps
    ensures other.slug in t0.apps ==>
              && t.apps[other.slug] == t0.apps[other.slug]
              && OwnerOf(t, other.slug, t.apps[other.slug]) == OwnerOf(t0, other.slug, t0.apps[other.slug])
              && (WrongType(t, other, t.apps[other.slug]) <==> WrongType(t0, other, t0.apps[other.slug]))
    ensures OwnedAsWanted(t, other) <==> OwnedAsWanted(t0, other)
    ensures AdoptTarget(t, other) == AdoptTarget(t0, other)
  {
    if other.slug in t0.apps && t0.apps[other.slug].provider.Some? {
      var q := t0.apps[other.slug].provider.value;
      if Marker(s.slug) == Marker(other.slug) {
        MarkerIsInjective(s.slug, other.slug);
      }
      assert !(s.slug in t0.apps && t0.apps[s.slug].provider == Some(q));
      assert q in t.providers <==> q in t0.providers;
      assert q in t0.providers && t.providers[q] != t0.providers[q] ==>
          t0.providers[q].name == Marker(s.slug) && t.providers[q].name == Marker(s.slug);
    }
    hide Marker;
  }

  /** Nobody new claims the other app's host, when the two hosts differ. */
  lemma OthersClaims(s: Spec, other: Spec, t0: Tables, t: Tables)
    requires RowIsOwn(t0, s, t) && AdoptTarget(t, other) == AdoptTarget(t0, other)
    requires s.provider.ForwardAuth? && other.provider.ForwardAuth? ==> s.host != other.host
    requires NoClaim(t0, other)
    ensures NoClaim(t, other)
  {
    forall p | other.provider.ForwardAuth? && p in t.providers ensures !Collides(t, other, p) {
      if p in t0.providers && t.providers[p] == t0.providers[p] {
        assert !Collides(t0, other, p);
      } else {
        HostsApart(s.host, other.host);
      }
    }
  }

  lemma HostsApart(a: string, b: string)
    ensures "https://" + a == "https://" + b ==> a == b
  {
    assert ("https://" + a)[8..] == a && ("https://" + b)[8..] == b;
  }

  lemma OthersRowAvailable(s: Spec, other: Spec, t0: Tables, t: Tables)
    requires WellFormed(t0) && OthersUntouched(t0, s.slug, t) && RowIsOwn(t0, s, t) && LinkIsOwn(t0, s, t) && other.slug != s.slug
    requires AdoptTarget(t, other) == AdoptTarget(t0, other) && RowAvailable(t0, other)
    ensures RowAvailable(t, other)
  {
    if Marker(s.slug) == Marker(other.slug) {
      MarkerIsInjective(s.slug, other.slug);
    }
    forall p | p in t.providers && t.providers[p].name == Marker(other.slug) ensures p in t0.providers && t.providers[p] == t0.providers[p] {
    }
    hide Marker;
    if AdoptTarget(t, other).None? {
      forall p, a | p in t.providers && t.providers[p].name == Marker(other.slug) && a in t.apps && a != other.slug
        ensures t.apps[a].provider != Some(p)
      {
        assert a != s.slug ==> t.apps[a] == t0.apps[a];
      }
    }
  }

  lemma OthersCleared(cfg: Config, lib: Library, s: Spec, other: Spec, t0: Tables, t: Tables)
    requires WellFormed(t0) && OthersUntouched(t0, s.slug, t) && RowIsOwn(t0, s, t) && other.slug != s.slug
    requires s.provider.ForwardAuth? && other.provider.ForwardAuth? ==> s.host != other.host
    requires Cleared(cfg, lib, other, t0)
    ensures Cleared(cfg, lib, other, t)
  {
    hide WantedKeys, Resolvable, NoClaim, ExactlyBound, OwnedAsWanted, AdoptTarget, WellFormed, Marker, OwnerOf, WrongType;
    OthersOwnership(s, other, t0, t);
    OthersClaims(s, other, t0, t);
    SameKeys(cfg, lib, other, t0.groups, t.groups);
    if other.slug in t0.apps {
      OthersBindings(s, other, t0, t, WantedKeys(cfg, lib, other, t0.groups));
    }
    hide OthersUntouched, RowIsOwn;
  }

  /** What could be reconciled before can be reconciled in every state of another app's reconcile, as
      long as slugs and hosts differ. */
  lemma OthersStayAdmissible(cfg: Config, lib: Library, s: Spec, other: Spec, t0: Tables, e: Entry)
    requires WellFormed(t0) && Lawful(cfg, lib, s, t0, e) && other.slug != s.slug
    requires s.provider.ForwardAuth? && other.provider.ForwardAuth? ==> s.host != other.host
    requires Admissible(cfg, lib, other, t0)
    ensures Admissible(cfg, lib, other, e.after)
  {
    hide WellFormed, Cleared, RowAvailable, OthersUntouched, RowIsOwn, LinkIsOwn, AdoptTarget, FindOutpost, HostsUnique, AccessKept, RightlyTyped,
         GroupsAsked, Converged, Realised, DesiredBody;
    OthersOwnership(s, other, t0, e.after);
    OthersCleared(cfg, lib, s, other, t0, e.after);
    OthersRowAvailable(s, other, t0, e.after);
    SameNamesSameFind(t0.outposts, e.after.outposts, OutpostName(cfg, other));
  }
}
