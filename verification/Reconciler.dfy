/** The reconcile protocol: resolve, gate, converge provider, application and bindings, and
    attach to the outpost last. */
module Reconciler {
  import opened Options
  import opened Authentik
  import opened Desired
  import opened GoLive
  import opened Lookups
  import opened Bindings
  import opened Law
  import opened Provision
  import opened Rows

  // Each phase extends a lawful trace.

  lemma LawfulReads(cfg: Config, lib: Library, s: Spec, t0: Tables, before: seq<Entry>, n: nat, t: Tables, trace: seq<Entry>)
    requires before <= trace && Still(t0, before, n) && LawfulSince(cfg, lib, s, t0, before, n)
    requires Lawful(cfg, lib, s, t0, Entry(Read, t)) && Reads(trace, |before|, t) && t.outposts == t0.outposts
    ensures LawfulSince(cfg, lib, s, t0, trace, n) && OnlyGrows(trace, n, t)
  {
    hide Lawful;
    assert forall i | 0 <= i < |before| :: trace[i] == before[i];
    StillGrows(t0, trace, n, t);
  }

  lemma StillGrows(t0: Tables, trace: seq<Entry>, n: nat, t: Tables)
    requires Still(t0, trace, n) && t.outposts == t0.outposts
    ensures OnlyGrows(trace, n, t)
  {
  }

  lemma LawfulGroupPhase(cfg: Config, lib: Library, s: Spec, t0: Tables, trace: seq<Entry>, n: nat, t: Tables)
    requires GroupSteps(trace, n, t0) && GroupStep(t0, Entry(Read, t))
    requires AllAsked(trace, n, t0, EffectiveGroups(cfg, s)) && GroupsAsked(t0, EffectiveGroups(cfg, s), t)
    requires Converged(cfg, lib, s, t0) ==> t == t0 && Reads(trace, n, t0)
    ensures Still(t0, trace, n) && t.outposts == t0.outposts && LawfulSince(cfg, lib, s, t0, trace, n) && Lawful(cfg, lib, s, t0, Entry(Read, t))
  {
    hide Lawful, Converged, GroupStep, GroupsAsked;
    forall i | n <= i < |trace| ensures Lawful(cfg, lib, s, t0, trace[i]) && trace[i].after.outposts == t0.outposts {
      LawfulGroups(cfg, lib, s, t0, trace[i]);
    }
    LawfulGroups(cfg, lib, s, t0, Entry(Read, t));
  }

  lemma LawfulProviderPhase(cfg: Config, lib: Library, s: Spec, t0: Tables, before: seq<Entry>, n: nat,
                            tA: Tables, target: nat, t: Tables, trace: seq<Entry>)
    requires before <= trace && Still(t0, before, n) && LawfulSince(cfg, lib, s, t0, before, n) && Lawful(cfg, lib, s, t0, Entry(Read, tA))
    requires WellFormed(t0) && WellFormed(tA) && GroupStep(t0, Entry(Read, tA)) && Cleared(cfg, lib, s, tA) && IsTarget(tA, s, target)
    requires ProviderSteps(cfg, lib, s, tA, target, trace, |before|) && ProviderStep(cfg, lib, s, tA, target, Entry(Read, t))
    ensures Still(t0, trace, n) && t.outposts == t0.outposts && LawfulSince(cfg, lib, s, t0, trace, n) && Lawful(cfg, lib, s, t0, Entry(Read, t))
  {
    hide Lawful, WellFormed, GroupStep, Cleared, IsTarget, ProviderStep;
    forall i | n <= i < |trace| ensures Lawful(cfg, lib, s, t0, trace[i]) && trace[i].after.outposts == t0.outposts {
      if i < |before| {
        assert trace[i] == before[i];
      } else {
        LawfulProvider(cfg, lib, s, t0, tA, target, trace[i]);
      }
    }
    LawfulProvider(cfg, lib, s, t0, tA, target, Entry(Read, t));
  }

  lemma LawfulAppPhase(cfg: Config, lib: Library, s: Spec, t0: Tables, before: seq<Entry>, n: nat,
                       tA: Tables, tB: Tables, provider: nat, t: Tables, trace: seq<Entry>)
    requires before <= trace && Still(t0, before, n) && LawfulSince(cfg, lib, s, t0, before, n) && Lawful(cfg, lib, s, t0, Entry(Read, tB))
    requires GroupStep(t0, Entry(Read, tA)) && Cleared(cfg, lib, s, tA)
    requires tB.apps == tA.apps && tB.bindings == tA.bindings && tB.outposts == t0.outposts
    requires Converged(cfg, lib, s, t0) ==> t0.apps[s.slug].provider == Some(provider)
    requires provider in tB.providers && tB.providers[provider].name == Marker(s.slug)
    requires AppSteps(s, tB, provider, trace, |before|) && AppStep(s, tB, provider, Entry(Read, t))
    ensures Still(t0, trace, n) && t.outposts == t0.outposts && LawfulSince(cfg, lib, s, t0, trace, n) && Lawful(cfg, lib, s, t0, Entry(Read, t))
  {
    hide Lawful, GroupStep, Cleared, AppStep;
    forall i | n <= i < |trace| ensures Lawful(cfg, lib, s, t0, trace[i]) && trace[i].after.outposts == t0.outposts {
      if i < |before| {
        assert trace[i] == before[i];
      } else {
        LawfulApp(cfg, lib, s, t0, tA, tB, provider, trace[i]);
      }
    }
    LawfulApp(cfg, lib, s, t0, tA, tB, provider, Entry(Read, t));
  }

  lemma LawfulBindingPhase(cfg: Config, lib: Library, s: Spec, t0: Tables, before: seq<Entry>, n: nat,
                           tA: Tables, tC: Tables, t: Tables, trace: seq<Entry>)
    requires before <= trace && Still(t0, before, n) && LawfulSince(cfg, lib, s, t0, before, n) && Lawful(cfg, lib, s, t0, Entry(Read, tC))
    requires RowsBelow(t0) && GroupStep(t0, Entry(Read, tA)) && Cleared(cfg, lib, s, tA)
    requires s.slug in tC.apps && tC.groups == tA.groups && tC.bindings == tA.bindings && tC.outposts == t0.outposts
    requires if s.slug in t0.apps then tC.apps[s.slug].pk == t0.apps[s.slug].pk else tC.apps[s.slug].pk >= t0.next
    requires BindingSteps(trace, |before|, tC, tC.apps[s.slug].pk, WantedKeys(cfg, lib, s, tA.groups))
    requires BindingStep(tC, tC.apps[s.slug].pk, WantedKeys(cfg, lib, s, tA.groups), Entry(Read, t))
    requires ExactlyBound(tC.bindings, tC.apps[s.slug].pk, WantedKeys(cfg, lib, s, tA.groups)) ==> t == tC && Reads(trace, |before|, tC)
    ensures Still(t0, trace, n) && t.outposts == t0.outposts && LawfulSince(cfg, lib, s, t0, trace, n) && Lawful(cfg, lib, s, t0, Entry(Read, t))
  {
    hide Lawful, GroupStep, RowsBelow, BindingStep, ExactlyBound;
    forall i | n <= i < |trace| ensures Lawful(cfg, lib, s, t0, trace[i]) && trace[i].after.outposts == t0.outposts {
      if i < |before| {
        assert trace[i] == before[i];
      } else {
        LawfulBindings(cfg, lib, s, t0, tA, tC, trace[i]);
      }
    }
    LawfulBindings(cfg, lib, s, t0, tA, tC, Entry(Read, t));
  }

  /** The list is as found until the provider is on it, and then it stays on. */
  ghost predicate OutpostSteps(t: Tables, o: nat, pk: nat, trace: seq<Entry>, n: nat) {
    && n <= |trace| && o < |t.outposts|
    && (forall i | n <= i < |trace| :: OutpostStep(t, o, pk, trace[i]))
    && (forall i, j | n <= i <= j < |trace| && trace[i].after == Listed(t, o, pk) :: trace[j].after == Listed(t, o, pk))
  }

  lemma ListedGrows(t0: Tables, before: seq<Entry>, n: nat, tD: Tables, pk: nat, o: nat, t: Tables, trace: seq<Entry>)
    requires before <= trace && Still(t0, before, n) && tD.outposts == t0.outposts
    requires OutpostSteps(tD, o, pk, trace, |before|) && OutpostStep(tD, o, pk, Entry(Read, t))
    requires |before| < |trace| ==> t == trace[|trace| - 1].after
    requires |before| == |trace| ==> t == tD
    ensures OnlyGrows(trace, n, t)
  {
    forall i | n <= i < |trace|
      ensures trace[i].after.outposts in {t0.outposts, Listed(tD, o, pk).outposts}
    {
      if i < |before| {
        assert trace[i] == before[i];
      }
    }
    forall i, j | n <= i <= j < |trace| ensures ListsGrow(trace[i].after, trace[j].after) {
      if i < |before| {
        assert trace[i] == before[i];
      }
    }
    forall i | n <= i < |trace| ensures ListsGrow(trace[i].after, t) {
    }
  }

  lemma LawfulOutpostPhase(cfg: Config, lib: Library, s: Spec, t0: Tables, before: seq<Entry>, n: nat,
                           tD: Tables, pk: nat, o: nat, t: Tables, trace: seq<Entry>)
    requires before <= trace && Still(t0, before, n) && LawfulSince(cfg, lib, s, t0, before, n)
    requires Lawful(cfg, lib, s, t0, Entry(Read, tD)) && tD.outposts == t0.outposts
    requires Realised(cfg, lib, s, tD) && tD.apps[s.slug].provider == Some(pk) && s.provider.ForwardAuth?
    requires FindOutpost(tD.outposts, OutpostName(cfg, s)) == Some(o)
    requires OutpostSteps(tD, o, pk, trace, |before|) && OutpostStep(tD, o, pk, Entry(Read, t))
    requires |before| < |trace| && t == trace[|trace| - 1].after
    ensures LawfulSince(cfg, lib, s, t0, trace, n) && Lawful(cfg, lib, s, t0, Entry(Read, t)) && OnlyGrows(trace, n, t)
  {
    hide Lawful, OutpostStep, Ready, Realised, FindOutpost;
    forall i | n <= i < |trace| ensures Lawful(cfg, lib, s, t0, trace[i]) {
      if i < |before| {
        assert trace[i] == before[i];
      } else {
        LawfulOutpost(cfg, lib, s, t0, tD, pk, o, trace[i]);
      }
    }
    LawfulOutpost(cfg, lib, s, t0, tD, pk, o, Entry(Read, t));
    ListedGrows(t0, before, n, tD, pk, o, t, trace);
  }

  // The outpost phase.

  /** Reads and re-sent lists: the tables stand still. */
  ghost predicate Resent(t: Tables, trace: seq<Entry>, n: nat) {
    n <= |trace| && forall i | n <= i < |trace| :: (trace[i].op.Read? || trace[i].op.PatchOutpost?) && trace[i].after == t
  }

  lemma ResendChangesNothing(t: Tables, o: nat, list: seq<nat>)
    requires o < |t.outposts| && t.outposts[o].providers == list
    ensures Apply(t, PatchOutpost(o, list)) == Applied(t, o)
  {
    assert t.outposts[o := t.outposts[o].(providers := list)] == t.outposts;
  }

  /** Probes once, and when the host is not served re-sends the list and polls. */
  method VerifyGoLive(api: Server, cfg: Config, res: Result, o: nat, snapshot: seq<nat>, pk: nat, host: string)
    returns (err: Option<Code>)
    requires api.Valid() && o < |api.tables.outposts| && api.tables.outposts[o].providers == With(snapshot, pk)
    modifies api`tables, api`calls, api`trace, api`clock, res`issues
    ensures api.Valid() && Reported(old(res.issues), res.issues, err)
    ensures old(api.trace) <= api.trace && old(api.calls) <= api.calls && api.tables == old(api.tables) && old(api.clock) <= api.clock
    ensures Resent(old(api.tables), api.trace, |old(api.trace)|)
    ensures err.None? ==> api.env.serves(host, api.clock)
    // A host that is not served at first is reported live only after the list was sent again.
    ensures err.None? && !api.env.serves(host, old(api.clock)) ==>
              |api.trace| > |old(api.trace)| + 1 && api.trace[|old(api.trace)| + 1].op == PatchOutpost(o, With(snapshot, pk))
    ensures Calm(api.env, old(api.calls)) && host != "" && api.env.serves(host, old(api.clock)) ==> err.None?
    // Undisturbed, it waits as long as the window allows.
    ensures Calm(api.env, old(api.calls)) && Awake(api.env, old(api.clock)) && host != "" ==>
              err in {None, Some(GoLiveStale)} && LiveInTime(api.env, host, old(api.clock), Timeout(cfg), err, api.clock)
    ensures err == Some(GoLiveStale) ==> NeverServed(api.env, host, old(api.clock), Timeout(cfg))
    ensures err in {None, Some(GoLiveUnverified), Some(GoLiveStale), Some(ApiError)}
  {
    hide WellFormed, Errors, Apply, PollOutcome, LiveInTime, NeverServed, Elapsed;
    LiveAtOnce(api.env, host, api.clock, Timeout(cfg));
    ghost var t, n := api.tables, |api.trace|;
    var serves := api.Probe(host);
    if serves.Unreachable? {
      err := res.Fail(GoLiveUnverified);
      return;
    }
    if serves.value {
      return None;
    }
    ResendChangesNothing(t, o, With(snapshot, pk));
    var patched := api.Commit(PatchOutpost(o, With(snapshot, pk)));
    if !patched.Written? {
      err := res.Fail(ApiError);
      return;
    }
    ghost var probes;
    ghost var start := api.clock;
    err, probes := PollGoLive(api, cfg, host, res);
    PollLeaves(api.env, host, start, Timeout(cfg), probes, err);
    PollReports(api.env, host, start, Timeout(cfg), probes, err);
  }

  lemma PollLeaves(env: Env, host: string, start: nat, timeout: nat, probes: nat, err: Option<Code>)
    requires 0 < timeout && PollOutcome(env, host, start, timeout, probes, err)
    ensures err in {None, Some(GoLiveUnverified), Some(GoLiveStale)}
    ensures err.None? ==> env.serves(host, start + Elapsed(probes))
  {
  }

  lemma ResentIsOutpostSteps(t: Tables, o: nat, pk: nat, trace: seq<Entry>, n: nat, m: nat)
    requires n <= m <= |trace| && OutpostSteps(t, o, pk, trace[..m], n) && Resent(Listed(t, o, pk), trace, m)
    ensures OutpostSteps(t, o, pk, trace, n)
  {
    forall i | n <= i < |trace|
      ensures OutpostStep(t, o, pk, trace[i]) && (i >= m ==> trace[i].after == Listed(t, o, pk))
    {
      assert i < m ==> trace[..m][i] == trace[i];
    }
    assert forall i | n <= i < m :: trace[..m][i] == trace[i];
  }

  /** The go-live step: list the provider, and for the embedded outpost confirm it is served. */
  method AttachOutpost(api: Server, cfg: Config, res: Result, name: string, pk: nat, host: string)
    returns (err: Option<Code>)
    requires api.Valid()
    modifies api`tables, api`calls, api`trace, api`clock, res`issues, res`attached
    ensures api.Valid() && Reported(old(res.issues), res.issues, err)
    ensures old(api.trace) < api.trace && old(api.calls) <= api.calls && api.trace[|api.trace| - 1].after == api.tables
    ensures old(api.clock) <= api.clock
    ensures match FindOutpost(old(api.tables).outposts, name)
            case Some(o) => OutpostSteps(old(api.tables), o, pk, api.trace, |old(api.trace)|)
                            && OutpostStep(old(api.tables), o, pk, Entry(Read, api.tables))
                            && (err.None? ==> api.tables == Listed(old(api.tables), o, pk))
            case None => Reads(api.trace, |old(api.trace)|, old(api.tables)) && api.tables == old(api.tables) && err.Some?
    ensures res.attached == (old(res.attached) || err.None?)
    ensures err.Some? ==> !IsRefusal(err.value)
    ensures err.None? && name == EMBEDDED ==> api.env.serves(host, api.clock)
    ensures Calm(api.env, old(api.calls)) && FindOutpost(old(api.tables).outposts, name).Some?
              && (name == EMBEDDED ==> host != "" && api.env.serves(host, old(api.clock)))
            ==> err.None?
    ensures Calm(api.env, old(api.calls)) && Awake(api.env, old(api.clock)) && FindOutpost(old(api.tables).outposts, name).Some?
              && name == EMBEDDED && host != "" ==>
              err in {None, Some(GoLiveStale)} && LiveInTime(api.env, host, old(api.clock), Timeout(cfg), err, api.clock)
    ensures err == Some(GoLiveStale) ==> name == EMBEDDED && NeverServed(api.env, host, old(api.clock), Timeout(cfg))
  {
    hide WellFormed, Errors, Apply, FindOutpost, LiveInTime, NeverServed;
    ghost var t0, n := api.tables, |api.trace|;
    var found := api.Fetch(FindOutpost(api.tables.outposts, name));
    if found.Unreachable? {
      err := res.Fail(ApiError);
      return;
    }
    if found.value.None? {
      err := res.Fail(OutpostMissing);
      return;
    }
    var o := found.value.value;
    var snapshot := api.tables.outposts[o].providers;
    AttachApplies(t0, o, pk);
    if pk !in snapshot {
      var patched := api.Commit(PatchOutpost(o, snapshot + [pk]));
      if !patched.Written? {
        err := res.Fail(ApiError);
        return;
      }
    }
    ghost var m := |api.trace|;
    assert OutpostSteps(t0, o, pk, api.trace, n);
    if name == EMBEDDED {
      ghost var before := api.trace;
      err := VerifyGoLive(api, cfg, res, o, snapshot, pk, host);
      assert api.trace[..m] == before;
      ResentIsOutpostSteps(t0, o, pk, api.trace, n, m);
      if err.Some? {
        return;
      }
    }
    res.attached := true;
    err := None;
  }

  /** Appending a provider that is not on the list lists it; one that is on it is listed already. */
  lemma AttachApplies(t: Tables, o: nat, pk: nat)
    requires o < |t.outposts|
    ensures pk !in t.outposts[o].providers ==>
              Apply(t, PatchOutpost(o, t.outposts[o].providers + [pk])) == Applied(Listed(t, o, pk), o)
    ensures pk in t.outposts[o].providers ==> Listed(t, o, pk) == t
    ensures Listed(t, o, pk).outposts[o].providers == With(t.outposts[o].providers, pk)
  {
    assert pk in t.outposts[o].providers ==> t.outposts[o := t.outposts[o]] == t.outposts;
  }

  // The whole protocol.

  /** Codes that only come from the checks in front of the first provider write. */
  predicate IsRefusal(code: Code) {
    code !in {ApiError, OutpostMissing, GoLiveUnverified, GoLiveStale}
  }

  lemma GroupStepIsRefl(t: Tables, names: seq<string>)
    ensures GroupStep(t, Entry(Read, t)) && GroupsAsked(t, names, t)
  {
  }

  lemma GroupsLeaveTheRest(t0: Tables, t: Tables)
    requires GroupStep(t0, Entry(Read, t))
    ensures t.providers == t0.providers && t.apps == t0.apps && t.bindings == t0.bindings && t.outposts == t0.outposts
            && t0.next <= t.next
  {
  }

  method ResolveFlows(api: Server, cfg: Config, res: Result, s: Spec)
    returns (err: Option<Code>, authz: string, inval: string)
    modifies api`calls, api`trace, res`issues
    ensures Looked(api, err != Some(ApiError)) && Reported(old(res.issues), res.issues, err)
    ensures err.None? ==> Lookup(api.lib.flows, FlowSlug(cfg, s)) == Some(authz)
                          && Lookup(api.lib.flows, cfg.invalidationFlow) == Some(inval)
    ensures err in {None, Some(ApiError), Some(FlowMissing)}
    ensures err == Some(FlowMissing) ==> FlowSlug(cfg, s) !in api.lib.flows || cfg.invalidationFlow !in api.lib.flows
  {
    authz, inval := "", "";
    var flow := api.Fetch(Lookup(api.lib.flows, FlowSlug(cfg, s)));
    if flow.Unreachable? || flow.value.None? {
      err := res.Fail(if flow.Unreachable? then ApiError else FlowMissing);
      return;
    }
    var invalFlow := api.Fetch(Lookup(api.lib.flows, cfg.invalidationFlow));
    if invalFlow.Unreachable? || invalFlow.value.None? {
      err := res.Fail(if invalFlow.Unreachable? then ApiError else FlowMissing);
      return;
    }
    return None, flow.value.value, invalFlow.value.value;
  }

  /** The existing application passes the gate and the host is not claimed. Reads only. */
  method Admit(api: Server, cfg: Config, res: Result, s: Spec, desired: seq<Key>)
    returns (err: Option<Code>, appExists: bool, adopt: Option<nat>)
    requires api.Valid() && !res.adopted
    requires Resolvable(cfg, api.lib, s, api.tables.groups) && desired == WantedKeys(cfg, api.lib, s, api.tables.groups)
    modifies api`calls, api`trace, res`issues, res`adopted
    ensures Looked(api, err != Some(ApiError)) && Reported(old(res.issues), res.issues, err)
    ensures err.None? ==> Cleared(cfg, api.lib, s, api.tables)
                          && appExists == (s.slug in api.tables.apps) && adopt == AdoptTarget(api.tables, s)
    ensures res.adopted ==> s.slug in api.tables.apps && !OwnedAsWanted(api.tables, s)
    ensures err.None? && s.slug in api.tables.apps && !OwnedAsWanted(api.tables, s) ==> res.adopted
    ensures err.Some? && err != Some(ApiError) ==> IsRefusal(err.value) && !Cleared(cfg, api.lib, s, api.tables)
    ensures err != Some(ApiError) ==> err == GateOrHost(api.tables, s, desired)
  {
    hide WellFormed, Errors, Marker, IsAboardName, ExactlyBound, Collides;
    appExists, adopt := false, None;
    var found := api.Fetch(Lookup(api.tables.apps, s.slug));
    if found.Unreachable? {
      err := res.Fail(ApiError);
      return;
    }
    appExists := found.value.Some?;
    if appExists {
      var app := found.value.value;
      var own := ResolveOwnership(api, s.slug, app);
      if own.Unreachable? {
        err := res.Fail(ApiError);
        return;
      }
      if !(own.value.Owned? && own.value.kind == s.provider) {
        err := AdoptionGate(api, res, s, app, own.value, desired);
        if err.Some? {
          return;
        }
        adopt := app.provider;
      }
    }
    err := None;
    if s.provider.ForwardAuth? {
      err := CheckExternalHostCollision(api, res, s, adopt);
    }
  }

  /** Step a and the prelude: everything that is decided before the first provider write. */
  method Prepare(api: Server, cfg: Config, res: Result, s: Spec)
    returns (err: Option<Code>, authz: string, inval: string, desired: seq<Key>, appExists: bool, adopt: Option<nat>)
    requires api.Valid() && !res.adopted
    modifies api`tables, api`calls, api`trace, res`issues, res`adopted
    ensures api.Valid() && Reported(old(res.issues), res.issues, err)
    ensures old(api.trace) <= api.trace && old(api.calls) <= api.calls
    ensures GroupSteps(api.trace, |old(api.trace)|, old(api.tables)) && GroupStep(old(api.tables), Entry(Read, api.tables))
    ensures AllAsked(api.trace, |old(api.trace)|, old(api.tables), EffectiveGroups(cfg, s))
    ensures GroupsAsked(old(api.tables), EffectiveGroups(cfg, s), api.tables)
    ensures err.None? ==> Cleared(cfg, api.lib, s, api.tables)
                          && Lookup(api.lib.flows, FlowSlug(cfg, s)) == Some(authz)
                          && Lookup(api.lib.flows, cfg.invalidationFlow) == Some(inval)
                          && desired == WantedKeys(cfg, api.lib, s, api.tables.groups)
                          && appExists == (s.slug in api.tables.apps) && adopt == AdoptTarget(api.tables, s)
    ensures err.None? ==> forall k | k in desired :: k.pk != ""
    ensures res.adopted ==> s.slug in api.tables.apps && !OwnedAsWanted(api.tables, s)
    ensures err.None? && s.slug in api.tables.apps && !OwnedAsWanted(api.tables, s) ==> res.adopted
    ensures err.None? || err == Some(ApiError) || IsRefusal(err.value)
    // A refusal is the first that applies, to the store as it then is.
    ensures err != Some(ApiError) ==> err == EarlyRefusal(cfg, api.lib, s, api.tables)
    ensures !cfg.createGroups || Known(EffectiveGroups(cfg, s), old(api.tables).groups) ==> api.tables == old(api.tables)
    ensures Calm(api.env, old(api.calls)) ==> err != Some(ApiError)
    ensures Converged(cfg, api.lib, s, old(api.tables)) ==>
              api.tables == old(api.tables) && Reads(api.trace, |old(api.trace)|, old(api.tables))
    ensures Cleared(cfg, api.lib, s, old(api.tables)) ==> api.tables == old(api.tables)
    // A calm run gets through whenever the checks are cleared and the flows exist.
    ensures Cleared(cfg, api.lib, s, old(api.tables)) && Calm(api.env, old(api.calls))
              && FlowSlug(cfg, s) in api.lib.flows && cfg.invalidationFlow in api.lib.flows
            ==> err.None?
  {
    hide WellFormed, Errors, GroupStep, Cleared, Converged, OwnedAsWanted, GroupsAsked, GateOrHost;
    ghost var t0, lib := api.tables, api.lib;
    desired, appExists, adopt := [], false, None;
    GroupStepIsRefl(t0, EffectiveGroups(cfg, s));
    ConvergedMeans(cfg, lib, s, t0);
    ClearedMeans(cfg, lib, s, t0);
    err, authz, inval := ResolveFlows(api, cfg, res, s);
    if err.Some? {
      return;
    }
    var groupKeys, policyKeys;
    err, groupKeys := ResolveGroups(api, cfg, res, EffectiveGroups(cfg, s));
    if err.Some? {
      return;
    }
    err, policyKeys := ResolvePolicies(api, res, s.policies);
    if err.Some? {
      return;
    }
    desired := groupKeys + policyKeys;
    WantedKeysAreReal(cfg, api, s);
    err, appExists, adopt := Admit(api, cfg, res, s, desired);
  }

  lemma ClearedMeans(cfg: Config, lib: Library, s: Spec, t: Tables)
    ensures Cleared(cfg, lib, s, t) ==> Known(EffectiveGroups(cfg, s), t.groups) && Known(s.policies, lib.policies)
  {
  }

  lemma ConvergedMeans(cfg: Config, lib: Library, s: Spec, t: Tables)
    ensures Converged(cfg, lib, s, t) ==>
              Known(EffectiveGroups(cfg, s), t.groups) && Known(s.policies, lib.policies) && OwnedAsWanted(t, s)
              && FlowSlug(cfg, s) in lib.flows && cfg.invalidationFlow in lib.flows && DesiredBody(cfg, lib, s).Some?
  {
  }

  /** With all hosts unique nobody else claims the host of a converged application. */
  lemma UniqueMeansNoClaim(cfg: Config, lib: Library, s: Spec, t: Tables)
    requires Converged(cfg, lib, s, t) && HostsUnique(t)
    ensures NoClaim(t, s)
  {
    if s.provider.ForwardAuth? {
      var own := t.apps[s.slug].provider.value;
      DesiredName(cfg, lib, s);
      MarkerIsInjective(s.slug, s.slug);
      assert t.providers[own].externalHost == "https://" + s.host;
      assert Claims(t.providers[own]);
    }
  }

  /** The row the reconcile will write is there to be written and nobody else's: the adopted one is of
      the wanted type and its new name is free, or the marker is free or on a row of that type. */
  ghost predicate RowAvailable(t: Tables, s: Spec) {
    match AdoptTarget(t, s)
    case Some(p) => p in t.providers && t.providers[p].component == ComponentOf(s.provider) && NameFree(t, Marker(s.slug), p)
    case None =>
      forall p | p in t.providers && t.providers[p].name == Marker(s.slug) ::
        t.providers[p].component == ComponentOf(s.provider) && forall a | a in t.apps && a != s.slug :: t.apps[a].provider != Some(p)
  }

  /** All that can stop a reconcile, other than a failing request or an outpost that does not serve, is
      out of the way. */
  ghost predicate Admissible(cfg: Config, lib: Library, s: Spec, t: Tables) {
    && Cleared(cfg, lib, s, t) && DesiredBody(cfg, lib, s).Some? && RowAvailable(t, s)
    && (s.provider.ForwardAuth? ==> FindOutpost(t.outposts, OutpostName(cfg, s)).Some?)
  }

  /** The embedded outpost, when it is the one, serves the host. */
  ghost predicate Served(cfg: Config, s: Spec, env: Env, clock: nat) {
    s.provider.ForwardAuth? && OutpostName(cfg, s) == EMBEDDED ==> s.host != "" && env.serves(s.host, clock)
  }

  lemma AdmissibleMeans(cfg: Config, lib: Library, s: Spec, t: Tables)
    ensures Admissible(cfg, lib, s, t) ==>
              && Cleared(cfg, lib, s, t) && DesiredBody(cfg, lib, s).Some?
              && FlowSlug(cfg, s) in lib.flows && cfg.invalidationFlow in lib.flows
              && (s.provider.ForwardAuth? ==> FindOutpost(t.outposts, OutpostName(cfg, s)).Some?)
  {
    hide Cleared, RowAvailable, FindOutpost;
  }

  /** An available row takes the body and the link. */
  lemma AvailableIsPlaceable(cfg: Config, lib: Library, s: Spec, t: Tables, target: nat)
    requires WellFormed(t) && IsTarget(t, s, target)
    ensures Admissible(cfg, lib, s, t) ==>
              && Placeable(t, s.provider, DesiredBody(cfg, lib, s).value, target) && (AdoptTarget(t, s).None? || target in t.providers)
              && LinkFree(Placed(t, s.provider, DesiredBody(cfg, lib, s).value, target), target, s.slug)
  {
    if Admissible(cfg, lib, s, t) {
      DesiredName(cfg, lib, s);
      hide Cleared, DesiredBody, FindOutpost, WantedKeys, Resolvable;
      assert target in t.providers || target == t.next;
      assert Serves(EndpointOf(s.provider), ComponentOf(s.provider));
      assert NameFree(t, Marker(s.slug), target);
      assert forall a | a in t.apps && a != s.slug :: t.apps[a].provider != Some(target);
    }
  }

  /** A converged application whose host nobody else claims can always be reconciled again; with all
      hosts unique nobody does. */
  lemma ConvergedIsAdmissible(cfg: Config, lib: Library, s: Spec, t: Tables)
    requires WellFormed(t) && Converged(cfg, lib, s, t) && (NoClaim(t, s) || HostsUnique(t))
    ensures Admissible(cfg, lib, s, t)
  {
    if HostsUnique(t) {
      UniqueMeansNoClaim(cfg, lib, s, t);
    }
    hide HostsUnique;
    DesiredName(cfg, lib, s);
    var own := t.apps[s.slug].provider.value;
    assert t.providers[own].name == Marker(s.slug) && t.providers[own].component == ComponentOf(s.provider);
    forall p | p in t.providers && t.providers[p].name == Marker(s.slug) ensures p == own {
      SameRow(t, s, p, own);
    }
    hide DesiredBody, FindOutpost, WantedKeys, Overlay, OverlayApp, ExactlyBound, NoClaim;
  }

  /** On a converged store the target is the application's own provider, and writing it changes nothing. */
  lemma ConvergedIsAccepted(cfg: Config, lib: Library, s: Spec, t: Tables, target: nat)
    requires WellFormed(t) && IsTarget(t, s, target)
    ensures Converged(cfg, lib, s, t) ==> t.apps[s.slug].provider == Some(target)
  {
    if Converged(cfg, lib, s, t) {
      DesiredName(cfg, lib, s);
      var p := t.apps[s.slug].provider.value;
      assert t.providers[p].name == Marker(s.slug) && t.providers[p].component == ComponentOf(s.provider);
      assert target in t.providers;
      SameRow(t, s, target, p);
    }
  }

  /** Step b: the body, then the one provider write. */
  method ConvergeProvider(api: Server, cfg: Config, res: Result, s: Spec, authz: string, inval: string, adopt: Option<nat>)
    returns (err: Option<Code>, pk: nat, ghost target: nat)
    requires api.Valid() && adopt == AdoptTarget(api.tables, s)
    requires Lookup(api.lib.flows, FlowSlug(cfg, s)) == Some(authz)
    requires Lookup(api.lib.flows, cfg.invalidationFlow) == Some(inval)
    modifies api`tables, api`calls, api`trace, res`issues
    ensures api.Valid() && Reported(old(res.issues), res.issues, err)
    ensures old(api.trace) <= api.trace && old(api.calls) <= api.calls
    ensures IsTarget(old(api.tables), s, target)
    ensures ProviderSteps(cfg, api.lib, s, old(api.tables), target, api.trace, |old(api.trace)|)
    ensures ProviderStep(cfg, api.lib, s, old(api.tables), target, Entry(Read, api.tables))
    ensures err.None? ==> pk == target && DesiredBody(cfg, api.lib, s).Some?
                          && Placeable(old(api.tables), s.provider, DesiredBody(cfg, api.lib, s).value, target)
                          && api.tables == Placed(old(api.tables), s.provider, DesiredBody(cfg, api.lib, s).value, target)
    // A refusal here is about something the body names, before the write.
    ensures err.Some? && err != Some(ApiError) ==> api.tables == old(api.tables) && DesiredBody(cfg, api.lib, s).None? && IsRefusal(err.value)
    ensures err.Some? && err != Some(ApiError) ==> err == BodyRefusal(cfg, api.lib, s)
    ensures Calm(api.env, old(api.calls)) && BodyRefusal(cfg, api.lib, s).Some? ==> err == BodyRefusal(cfg, api.lib, s)
    ensures Calm(api.env, old(api.calls)) && DesiredBody(cfg, api.lib, s).Some?
              && Placeable(old(api.tables), s.provider, DesiredBody(cfg, api.lib, s).value, target)
              && (adopt.None? || target in old(api.tables).providers)
            ==> err.None?
  {
    hide WellFormed, Errors, DesiredBody, IsTarget, ProviderStep, Placeable, Placed;
    ghost var t0, n := api.tables, |api.trace|;
    pk := 0;
    SomeTarget(t0, s);
    target :| IsTarget(t0, s, target);
    var body;
    err, body := BuildBody(api, cfg, res, s, authz, inval);
    RefusedWithoutBody(cfg, api.lib, s);
    ReadsAreProviderSteps(cfg, api.lib, s, t0, api.trace, n);
    if err.Some? {
      return;
    }
    err, pk, target := Place(api, cfg, res, s, body, adopt);
  }

  /** Steps c and d: the application that points at the provider, then the bindings that gate it. `tA` is
      what the gate saw. */
  method LinkAndBind(api: Server, cfg: Config, res: Result, s: Spec, desired: seq<Key>, appExists: bool, pk: nat,
                     ghost start: Tables, ghost n: nat, ghost tA: Tables) returns (err: Option<Code>)
    requires api.Valid() && RowsBelow(start) && GroupStep(start, Entry(Read, tA)) && Cleared(cfg, api.lib, s, tA)
    requires Lawful(cfg, api.lib, s, start, Entry(Read, api.tables)) && LawfulSince(cfg, api.lib, s, start, api.trace, n)
    requires Still(start, api.trace, n) && api.tables.outposts == start.outposts
    requires api.tables.apps == tA.apps == start.apps && api.tables.bindings == tA.bindings && api.tables.groups == tA.groups
    requires start.next <= api.tables.next && appExists == (s.slug in tA.apps)
    requires desired == WantedKeys(cfg, api.lib, s, tA.groups) && forall k | k in desired :: k.pk != ""
    requires pk in api.tables.providers && api.tables.providers[pk].name == Marker(s.slug)
    requires Converged(cfg, api.lib, s, start) ==> start.apps[s.slug].provider == Some(pk)
    modifies api`tables, api`calls, api`trace, res`issues, res`appPk
    ensures api.Valid() && Reported(old(res.issues), res.issues, err)
    ensures old(api.trace) <= api.trace && old(api.calls) <= api.calls
    ensures Lawful(cfg, api.lib, s, start, Entry(Read, api.tables)) && LawfulSince(cfg, api.lib, s, start, api.trace, n)
    ensures Still(start, api.trace, n) && api.tables.outposts == start.outposts
    ensures err.None? ==> s.slug in api.tables.apps && api.tables.apps[s.slug] == Iconed(s, AppRow(old(api.tables), s, pk))
                          && api.tables.apps[s.slug].provider == Some(pk) && res.appPk == Some(api.tables.apps[s.slug].pk)
                          && api.tables.providers == old(api.tables).providers && api.tables.groups == tA.groups
                          && ExactlyBound(api.tables.bindings, api.tables.apps[s.slug].pk, desired)
    ensures err in {None, Some(ApiError)}
    ensures Calm(api.env, old(api.calls)) && LinkFree(old(api.tables), pk, s.slug) ==> err.None?
  {
    hide WellFormed, Errors, GroupStep, Lawful, Cleared, Converged, HostsUnique, OwnedAsWanted, AppStep, BindingStep, ExactlyBound, LinkFree,
         Ready, AppRow, Iconed, WithApp, WantedKeys, Resolvable, LawfulSince, Still, Apply, BindingSteps, AppSteps, RowsBelow, Marker;
    ghost var tB, traceB, lib := api.tables, api.trace, api.lib;
    var appPk;
    err, appPk := ConvergeApplication(api, res, s, pk, appExists);
    LawfulAppPhase(cfg, lib, s, start, traceB, n, tA, tB, pk, api.tables, api.trace);
    if err.Some? {
      return;
    }
    res.appPk := Some(appPk);
    ghost var tC, traceC := api.tables, api.trace;
    AppLinked(s, tB, pk);
    err := ConvergeBindings(api, res, appPk, desired);
    LawfulBindingPhase(cfg, lib, s, start, traceC, n, tA, tC, api.tables, api.trace);
    BindingsOnly(tC, appPk, desired, api.tables);
  }

  /** Steps b to d: the provider, the application that points at it, and the bindings that gate
      it, in that order. `start` and `n` are where the whole reconcile began. */
  method Realise(api: Server, cfg: Config, res: Result, s: Spec, authz: string, inval: string, desired: seq<Key>,
                 appExists: bool, adopt: Option<nat>, ghost start: Tables, ghost n: nat)
    returns (err: Option<Code>, pk: nat)
    requires api.Valid() && WellFormed(start) && GroupStep(start, Entry(Read, api.tables))
    requires Lawful(cfg, api.lib, s, start, Entry(Read, api.tables)) && LawfulSince(cfg, api.lib, s, start, api.trace, n)
    requires Still(start, api.trace, n)
    requires Cleared(cfg, api.lib, s, api.tables) && appExists == (s.slug in api.tables.apps) && adopt == AdoptTarget(api.tables, s)
    requires desired == WantedKeys(cfg, api.lib, s, api.tables.groups) && forall k | k in desired :: k.pk != ""
    requires Lookup(api.lib.flows, FlowSlug(cfg, s)) == Some(authz)
    requires Lookup(api.lib.flows, cfg.invalidationFlow) == Some(inval)
    requires Converged(cfg, api.lib, s, start) ==> api.tables == start
    modifies api`tables, api`calls, api`trace, res`issues, res`providerPk, res`appPk
    ensures api.Valid() && Reported(old(res.issues), res.issues, err)
    ensures old(api.trace) <= api.trace && old(api.calls) <= api.calls
    ensures Lawful(cfg, api.lib, s, start, Entry(Read, api.tables)) && LawfulSince(cfg, api.lib, s, start, api.trace, n)
    ensures Still(start, api.trace, n) && api.tables.outposts == start.outposts
    ensures err.None? ==> Realised(cfg, api.lib, s, api.tables) && api.tables.apps[s.slug].provider == Some(pk)
                          && res.providerPk == Some(pk) && res.appPk == Some(api.tables.apps[s.slug].pk) && NoClaim(api.tables, s)
                          && KeptAsFound(s, start, api.tables)
                          && (s.slug in start.apps && start.apps[s.slug].provider.Some? ==> start.apps[s.slug].provider == Some(pk))
    ensures err.Some? && err != Some(ApiError) ==> api.tables == old(api.tables) && DesiredBody(cfg, api.lib, s).None? && IsRefusal(err.value)
    ensures err.Some? && err != Some(ApiError) ==> err == BodyRefusal(cfg, api.lib, s)
    ensures Calm(api.env, old(api.calls)) && BodyRefusal(cfg, api.lib, s).Some? ==> err == BodyRefusal(cfg, api.lib, s)
    ensures Calm(api.env, old(api.calls)) && Admissible(cfg, api.lib, s, old(api.tables)) ==> err.None?
  {
    hide KeptAsFound, BodyRefusal;
    hide WellFormed, Errors, GroupStep, Lawful, Cleared, Converged, HostsUnique, OwnedAsWanted, IsTarget, DesiredBody, NoClaim, Admissible,
         ProviderStep, AppStep, BindingStep, OutpostStep, ExactlyBound, Placeable, LinkFree, Ready, Realised, Placed, AppRow, Iconed,
         WithApp, Listed, FindOutpost, WantedKeys, Resolvable, LawfulSince, Still, Apply, BindingSteps, AppSteps, ProviderSteps,
         RowsBelow, AdoptTarget, FlowSlug, Lookup, OutpostName, Marker, OwnerOf, With;
    ghost var t0, lib := start, api.lib;
    WellFormedRows(t0);
    ghost var tA, traceA := api.tables, api.trace;
    GroupsLeaveTheRest(t0, tA);
    ghost var target;
    err, pk, target := ConvergeProvider(api, cfg, res, s, authz, inval, adopt);
    LawfulProviderPhase(cfg, lib, s, t0, traceA, n, tA, target, api.tables, api.trace);
    ConvergedIsAccepted(cfg, lib, s, tA, target);
    AdmissibleMeans(cfg, lib, s, tA);
    AvailableIsPlaceable(cfg, lib, s, tA, target);
    if err.Some? {
      return;
    }
    res.providerPk := Some(pk);
    ghost var tB := api.tables;
    ProviderTouchesProviders(cfg, lib, s, tA, target, Entry(Read, tB));
    TargetIsMarked(cfg, lib, s, tA, target);
    err := LinkAndBind(api, cfg, res, s, desired, appExists, pk, t0, n, tA);
    if err.Some? {
      return;
    }
    ReadyToAttach(cfg, lib, s, tA, tB, pk, api.tables);
    RealisedAtLast(cfg, lib, s, tA, pk, tB, api.tables);
    ReadyIsOwned(cfg, lib, s, api.tables);
    if appExists {
      SameAppRow(tA, tB, s, pk);
    }
    KeptInPlace(s, start, tA, pk);
    UndeclaredIsKept(cfg, lib, s, start, tA, pk, api.tables);
    PlacedNoClaim(cfg, lib, s, tA, pk, api.tables);
  }

  lemma SameAppRow(tA: Tables, tB: Tables, s: Spec, pk: nat)
    requires tA.apps == tB.apps && s.slug in tA.apps
    ensures AppRow(tA, s, pk) == AppRow(tB, s, pk)
  {
  }

  lemma TargetIsMarked(cfg: Config, lib: Library, s: Spec, t: Tables, target: nat)
    requires DesiredBody(cfg, lib, s).Some?
    ensures var after := Placed(t, s.provider, DesiredBody(cfg, lib, s).value, target);
            target in after.providers && after.providers[target].name == Marker(s.slug)
  {
    DesiredName(cfg, lib, s);
    PlacedName(s.provider, t, DesiredBody(cfg, lib, s).value, target);
  }

  lemma ReadyIsOwned(cfg: Config, lib: Library, s: Spec, t: Tables)
    requires Ready(cfg, lib, s, t)
    ensures OwnedAsWanted(t, s)
  {
  }

  /** Converges Authentik to the Spec. Every state on the way is lawful; success means the Spec
      is realised, and on a store where it already is, nothing changes. */
  method Reconcile(api: Server, cfg: Config, s: Spec) returns (res: Result, err: Option<Code>)
    requires api.Valid()
    modifies api`tables, api`calls, api`trace, api`clock
    ensures fresh(res) && api.Valid() && old(api.trace) <= api.trace && old(api.calls) <= api.calls && old(api.clock) <= api.clock
    ensures Errors(res.issues) == match err case None => [] case Some(code) => [code]
    ensures LawfulSince(cfg, api.lib, s, old(api.tables), api.trace, |old(api.trace)|)
    ensures Lawful(cfg, api.lib, s, old(api.tables), Entry(Read, api.tables))
    // Nothing listed at any moment is ever unlisted.
    ensures OnlyGrows(api.trace, |old(api.trace)|, api.tables)
    ensures err.None? ==> Converged(cfg, api.lib, s, api.tables) && NoClaim(api.tables, s) && (res.attached <==> s.provider.ForwardAuth?)
    // In the words of the labels: success means all they ask for, and nothing goes onto an outpost before the right people are let in.
    ensures err.None? ==> AsAsked(cfg, api.lib, s, api.tables)
    ensures PutAsAsked(cfg, api.lib, s, old(api.tables), api.trace, |old(api.trace)|)
    // An application that points at a provider keeps that one: what is taken over is taken over in place.
    ensures err.None? && s.slug in old(api.tables).apps && old(api.tables).apps[s.slug].provider.Some? ==>
              s.slug in api.tables.apps && api.tables.apps[s.slug].provider == old(api.tables).apps[s.slug].provider
    ensures err.Some? ==> !res.attached
    ensures res.attached && OutpostName(cfg, s) == EMBEDDED ==> api.env.serves(s.host, api.clock)
    // What the labels do not declare stays as found.
    ensures err.None? ==> KeptAsFound(s, old(api.tables), api.tables)
    // A refusal leaves providers, applications, bindings and outposts as found.
    ensures err.Some? && IsRefusal(err.value) ==> GroupStep(old(api.tables), Entry(Read, api.tables))
    ensures res.adopted ==> !OwnedAsWanted(old(api.tables), s)
    // A refusal names the first reason there is; without failures, one reason is enough for a refusal.
    ensures err.Some? && IsRefusal(err.value) ==> err == Refusal(cfg, api.lib, s, api.tables)
    ensures Calm(api.env, old(api.calls)) && Refusal(cfg, api.lib, s, old(api.tables)).Some?
              && (!cfg.createGroups || Known(EffectiveGroups(cfg, s), old(api.tables).groups)) ==>
              err == Refusal(cfg, api.lib, s, old(api.tables)) && api.tables == old(api.tables)
    // A run without failures succeeds whenever nothing else can stop it.
    ensures Calm(api.env, old(api.calls)) && Admissible(cfg, api.lib, s, old(api.tables)) && Served(cfg, s, api.env, old(api.clock))
            ==> err.None?
    // On the embedded outpost it waits for the host, and gives up only when no probe of the whole window found it.
    ensures Calm(api.env, old(api.calls)) && Awake(api.env, old(api.clock)) && Admissible(cfg, api.lib, s, old(api.tables))
              && s.provider.ForwardAuth? && OutpostName(cfg, s) == EMBEDDED && s.host != "" ==>
              err in {None, Some(GoLiveStale)} && LiveInTime(api.env, s.host, old(api.clock), Timeout(cfg), err, api.clock)
    ensures err == Some(GoLiveStale) ==>
              s.provider.ForwardAuth? && OutpostName(cfg, s) == EMBEDDED && NeverServed(api.env, s.host, old(api.clock), Timeout(cfg))
  {
    hide LiveInTime, NeverServed, Awake, AsAsked, PutAsAsked, EarlyRefusal, BodyRefusal, KeptAsFound;
    hide WellFormed, Errors, GroupStep, Lawful, Cleared, Converged, OwnedAsWanted, DesiredBody, LawfulSince, Still, OnlyGrows, NoClaim,
         Admissible, GroupsAsked, AllAsked,
         OutpostStep, OutpostSteps, Ready, Realised, Listed, FindOutpost, WantedKeys, Resolvable, Apply, AdoptTarget, FlowSlug, Lookup,
         GroupSteps, Marker, OwnerOf, With, IsTarget;
    res := new Result();
    ghost var t0, n, lib := api.tables, |api.trace|, api.lib;
    EmptyErrors();
    ConvergedMeans(cfg, lib, s, t0);
    AdmissibleMeans(cfg, lib, s, t0);
    NoBodyIsRefusal(cfg, lib, s);
    var authz, inval, desired, appExists, adopt;
    err, authz, inval, desired, appExists, adopt := Prepare(api, cfg, res, s);
    LawfulGroupPhase(cfg, lib, s, t0, api.trace, n, api.tables);
    GroupsDoNotMatter(s, t0, api.tables);
    StillGrows(t0, api.trace, n, api.tables);
    LawfulIsAsAsked(cfg, lib, s, t0, api.trace, n);
    if err.Some? {
      return;
    }
    var pk;
    err, pk := Realise(api, cfg, res, s, authz, inval, desired, appExists, adopt, t0, n);
    StillGrows(t0, api.trace, n, api.tables);
    LawfulIsAsAsked(cfg, lib, s, t0, api.trace, n);
    if err.Some? {
      return;
    }
    RealisedMeans(cfg, lib, s, api.tables);
    ghost var realised := api.tables;
    if s.provider.ForwardAuth? {
      err := AttachApp(api, cfg, res, s, pk, t0, n);
      LawfulIsAsAsked(cfg, lib, s, t0, api.trace, n);
    }
    if err.None? {
      KeptStill(s, t0, realised, api.tables);
      ConvergedIsAsAsked(cfg, lib, s, api.tables);
    }
  }

  lemma KeptInPlace(s: Spec, t0: Tables, tA: Tables, pk: nat)
    requires WellFormed(t0) && GroupStep(t0, Entry(Read, tA)) && IsTarget(tA, s, pk)
    ensures s.slug in t0.apps && t0.apps[s.slug].provider.Some? ==> t0.apps[s.slug].provider == Some(pk)
  {
    if s.slug in t0.apps && OwnedAsWanted(tA, s) && pk in tA.providers {
      SameRow(tA, s, pk, tA.apps[s.slug].provider.value);
    }
  }

  lemma UndeclaredIsKept(cfg: Config, lib: Library, s: Spec, t0: Tables, tA: Tables, pk: nat, t: Tables)
    requires WellFormed(t0) && GroupStep(t0, Entry(Read, tA)) && IsTarget(tA, s, pk) && DesiredBody(cfg, lib, s).Some?
    requires t.providers == Placed(tA, s.provider, DesiredBody(cfg, lib, s).value, pk).providers
    requires s.slug in tA.apps ==> s.slug in t.apps && t.apps[s.slug] == Iconed(s, AppRow(tA, s, pk))
    ensures KeptAsFound(s, t0, t)
  {
    KeptInPlace(s, t0, tA, pk);
    if s.slug in t0.apps {
      AppKept(s, tA.apps[s.slug], pk);
      if t0.apps[s.slug].provider.Some? && t0.apps[s.slug].provider.value in t0.providers {
        FieldsKept(cfg, lib, s, tA.providers[pk]);
      }
    }
    hide IsTarget, DesiredBody, AppAsFound, ProviderAsFound, OverlayApp, Overlay, WellFormed, Iconed;
  }

  lemma AppKept(s: Spec, app: Application, pk: nat)
    ensures AppAsFound(s, app, Iconed(s, OverlayApp(app, DesiredApp(s, pk))))
  {
  }

  lemma FieldsKept(cfg: Config, lib: Library, s: Spec, p: Provider)
    requires DesiredBody(cfg, lib, s).Some?
    ensures ProviderAsFound(s, p, Overlay(p, DesiredBody(cfg, lib, s).value))
  {
    hide ScopeNames, Dedupe, Pks, SigningKey, ProxyBody, OidcBody, SamlBody, Overlay, ProviderAsFound, Known;
    match s.provider
    case ForwardAuth => ProxyFieldsKept(s, lib.flows[FlowSlug(cfg, s)], lib.flows[cfg.invalidationFlow], p);
    case Oidc =>
      OidcFieldsKept(s, lib.flows[FlowSlug(cfg, s)], lib.flows[cfg.invalidationFlow], Secret(cfg, s).value, SigningKey(lib, cfg.oidcKey).value,
                     Pks(ScopeNames(cfg, s), lib.scopes), p);
    case Saml =>
      SamlFieldsKept(s, lib.flows[FlowSlug(cfg, s)], lib.flows[cfg.invalidationFlow], SigningKey(lib, cfg.samlKey).value,
                     Dedupe(lib.managedSaml + Pks(s.samlMappings, lib.samlMappings)), p);
  }

  lemma KeptStill(s: Spec, t0: Tables, t: Tables, after: Tables)
    requires KeptAsFound(s, t0, t) && after.apps == t.apps && after.providers == t.providers
    ensures KeptAsFound(s, t0, after)
  {
  }

  lemma NoBodyIsRefusal(cfg: Config, lib: Library, s: Spec)
    ensures BodyRefusal(cfg, lib, s).Some? ==> IsRefusal(BodyRefusal(cfg, lib, s).value)
  {
    hide ScopeNames, SigningKey, Secret;
  }

  /** Whatever puts an app on an outpost leaves it behind the access the labels ask for. */
  ghost predicate PutAsAsked(cfg: Config, lib: Library, s: Spec, t0: Tables, trace: seq<Entry>, n: nat) {
    n <= |trace| && forall i | n <= i < |trace| && (trace[i].op.PatchOutpost? || trace[i].after.outposts != t0.outposts) ::
      GatedAsAsked(cfg, lib, s, trace[i].after) && ShownAsAsked(s, trace[i].after.apps[s.slug])
  }

  lemma LawfulIsAsAsked(cfg: Config, lib: Library, s: Spec, t0: Tables, trace: seq<Entry>, n: nat)
    requires LawfulSince(cfg, lib, s, t0, trace, n)
    ensures PutAsAsked(cfg, lib, s, t0, trace, n)
  {
    hide GatedAsAsked, ShownAsAsked, Lawful;
    forall i | n <= i < |trace| && (trace[i].op.PatchOutpost? || trace[i].after.outposts != t0.outposts)
      ensures s.slug in trace[i].after.apps && GatedAsAsked(cfg, lib, s, trace[i].after) && ShownAsAsked(s, trace[i].after.apps[s.slug])
    {
      LawfulIsRealised(cfg, lib, s, t0, trace[i]);
      RealisedMeans(cfg, lib, s, trace[i].after);
      ReadyIsGated(cfg, lib, s, trace[i].after);
      RealisedIsShown(cfg, lib, s, trace[i].after);
    }
  }

  lemma LawfulIsRealised(cfg: Config, lib: Library, s: Spec, t0: Tables, e: Entry)
    requires Lawful(cfg, lib, s, t0, e) && (e.op.PatchOutpost? || e.after.outposts != t0.outposts)
    ensures Realised(cfg, lib, s, e.after)
  {
    hide Realised;
  }

  /** Step e: a realised forward-auth app onto its outpost. */
  method AttachApp(api: Server, cfg: Config, res: Result, s: Spec, pk: nat, ghost start: Tables, ghost n: nat) returns (err: Option<Code>)
    requires api.Valid() && s.provider.ForwardAuth? && Realised(cfg, api.lib, s, api.tables) && api.tables.apps[s.slug].provider == Some(pk)
    requires Lawful(cfg, api.lib, s, start, Entry(Read, api.tables)) && LawfulSince(cfg, api.lib, s, start, api.trace, n)
    requires Still(start, api.trace, n) && api.tables.outposts == start.outposts && NoClaim(api.tables, s)
    modifies api`tables, api`calls, api`trace, api`clock, res`issues, res`attached
    ensures api.Valid() && Reported(old(res.issues), res.issues, err)
    ensures old(api.trace) <= api.trace && old(api.calls) <= api.calls && old(api.clock) <= api.clock
    ensures Lawful(cfg, api.lib, s, start, Entry(Read, api.tables)) && LawfulSince(cfg, api.lib, s, start, api.trace, n)
    ensures OnlyGrows(api.trace, n, api.tables)
    ensures err.None? ==> Converged(cfg, api.lib, s, api.tables) && NoClaim(api.tables, s) && api.tables.apps == old(api.tables).apps
                          && api.tables.providers == old(api.tables).providers
    ensures err.Some? ==> !IsRefusal(err.value)
    ensures res.attached == (old(res.attached) || err.None?)
    ensures err.None? && OutpostName(cfg, s) == EMBEDDED ==> api.env.serves(s.host, api.clock)
    ensures Calm(api.env, old(api.calls)) && FindOutpost(start.outposts, OutpostName(cfg, s)).Some? && Served(cfg, s, api.env, old(api.clock))
            ==> err.None?
    ensures Calm(api.env, old(api.calls)) && Awake(api.env, old(api.clock)) && FindOutpost(start.outposts, OutpostName(cfg, s)).Some?
              && OutpostName(cfg, s) == EMBEDDED && s.host != "" ==>
              err in {None, Some(GoLiveStale)} && LiveInTime(api.env, s.host, old(api.clock), Timeout(cfg), err, api.clock)
    ensures err == Some(GoLiveStale) ==> OutpostName(cfg, s) == EMBEDDED && NeverServed(api.env, s.host, old(api.clock), Timeout(cfg))
  {
    hide LiveInTime, NeverServed, Awake;
    hide WellFormed, Errors, Lawful, Converged, LawfulSince, Still, OnlyGrows, NoClaim, OutpostStep, OutpostSteps, Ready, Realised, Listed,
         FindOutpost, Apply, With;
    ghost var tD, traceD, lib := api.tables, api.trace, api.lib;
    RealisedMeans(cfg, lib, s, tD);
    err := AttachOutpost(api, cfg, res, OutpostName(cfg, s), pk, s.host);
    ghost var o := FindOutpost(tD.outposts, OutpostName(cfg, s));
    if o.Some? {
      LawfulOutpostPhase(cfg, lib, s, start, traceD, n, tD, pk, o.value, api.tables, api.trace);
    } else {
      LawfulReads(cfg, lib, s, start, traceD, n, tD, api.trace);
    }
    if err.Some? {
      return;
    }
    AttachedConverged(cfg, lib, s, tD, pk, o.value);
    AttachedNoClaim(s, tD, pk, o.value);
  }

  lemma WellFormedRows(t: Tables)
    requires WellFormed(t)
    ensures RowsBelow(t)
  {
  }

  lemma RealisedMeans(cfg: Config, lib: Library, s: Spec, t: Tables)
    requires Realised(cfg, lib, s, t)
    ensures Ready(cfg, lib, s, t) && (!s.provider.ForwardAuth? ==> Converged(cfg, lib, s, t))
  {
  }

  lemma AppLinked(s: Spec, tB: Tables, pk: nat)
    ensures var t := WithApp(tB, s, Iconed(s, AppRow(tB, s, pk)));
            && s.slug in t.apps && t.apps[s.slug] == Iconed(s, AppRow(tB, s, pk)) && t.apps[s.slug].provider == Some(pk)
            && t.apps[s.slug].pk == AppRow(tB, s, pk).pk
            && (if s.slug in tB.apps then t.apps[s.slug].pk == tB.apps[s.slug].pk else t.apps[s.slug].pk == tB.next)
            && t == tB.(apps := t.apps, next := t.next)
  {
  }

  lemma BindingsOnly(tC: Tables, app: nat, wanted: seq<Key>, tD: Tables)
    requires BindingStep(tC, app, wanted, Entry(Read, tD))
    ensures tD == tC.(bindings := tD.bindings, next := tD.next)
  {
  }

  /** With the steps before it done, the app is gated as wanted and points at the marker. */
  lemma ReadyToAttach(cfg: Config, lib: Library, s: Spec, tA: Tables, tB: Tables, pk: nat, tD: Tables)
    requires Cleared(cfg, lib, s, tA) && IsTarget(tA, s, pk) && DesiredBody(cfg, lib, s).Some?
    requires Placeable(tA, s.provider, DesiredBody(cfg, lib, s).value, pk)
    requires tB == Placed(tA, s.provider, DesiredBody(cfg, lib, s).value, pk)
    requires tD.providers == tB.providers && tD.groups == tA.groups
    requires s.slug in tD.apps && tD.apps[s.slug].provider == Some(pk)
    requires ExactlyBound(tD.bindings, tD.apps[s.slug].pk, WantedKeys(cfg, lib, s, tA.groups))
    ensures Ready(cfg, lib, s, tD)
  {
    PlacedType(cfg, lib, s, tA, pk);
    DesiredName(cfg, lib, s);
    PlacedName(s.provider, tA, DesiredBody(cfg, lib, s).value, pk);
    hide Placed, DesiredBody, Placeable, Cleared, IsTarget, ExactlyBound;
  }

  lemma AttachedConverged(cfg: Config, lib: Library, s: Spec, tD: Tables, pk: nat, o: nat)
    requires Realised(cfg, lib, s, tD) && tD.apps[s.slug].provider == Some(pk) && s.provider.ForwardAuth?
    requires FindOutpost(tD.outposts, OutpostName(cfg, s)) == Some(o)
    ensures o < |tD.outposts| && Converged(cfg, lib, s, Listed(tD, o, pk))
  {
    var t := Listed(tD, o, pk);
    RealisedIgnoresOutposts(cfg, lib, s, tD, t);
    SameNamesSameFind(tD.outposts, t.outposts, OutpostName(cfg, s));
    hide Ready, Overlay, OverlayApp, DesiredBody;
  }

  lemma AttachedNoClaim(s: Spec, tD: Tables, pk: nat, o: nat)
    requires o < |tD.outposts|
    ensures (NoClaim(Listed(tD, o, pk), s) <==> NoClaim(tD, s)) && Listed(tD, o, pk).apps == tD.apps
            && Listed(tD, o, pk).providers == tD.providers
  {
  }

  lemma {:induction false} SameNamesSameFind(a: seq<Outpost>, b: seq<Outpost>, name: string)
    requires |a| == |b| && forall o | 0 <= o < |a| :: a[o].name == b[o].name && a[o].embedded == b[o].embedded
    ensures FindOutpost(a, name) == FindOutpost(b, name)
  {
    if a != [] {
      SameNamesSameFind(a[..|a| - 1], b[..|b| - 1], name);
    }
  }

  lemma EmptyErrors()
    ensures Errors([]) == []
  {
  }
}
