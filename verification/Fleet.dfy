/** Whole runs: many reconciles and teardowns against one server, and what they keep together. */
module Fleet {
  import opened Options
  import opened Authentik
  import opened Desired
  import opened Law
  import opened Reconciler
  import opened Rows
  import opened GoLive
  import opened Cleanup
  import opened Live

  datatype Action = Sync(cfg: Config, spec: Spec) | Prune(slug: string)

  /** A moment of a run: the tables, the number of requests made and recorded, and the clock. */
  datatype Moment = Moment(tables: Tables, calls: nat, recorded: nat, clock: nat)

  /** What one action owes the moment it starts in. */
  ghost predicate ActionDone(lib: Library, env: Env, a: Action, before: Moment, after: Moment, err: Option<Code>) {
    match a
    case Sync(cfg, s) =>
      && Lawful(cfg, lib, s, before.tables, Entry(Read, after.tables)) && (err.None? ==> Converged(cfg, lib, s, after.tables))
      && (Calm(env, before.calls) && Admissible(cfg, lib, s, before.tables) && Served(cfg, s, env, before.clock) ==> err.None?)
    case Prune(slug) =>
      && TeardownStep(before.tables, slug, OwnerAt(before.tables, slug), after.tables)
      && (err.None? ==> after.tables == StageOf(before.tables, slug, OwnerAt(before.tables, slug), Finished))
      && (Calm(env, before.calls) ==> (err.None? <==> OwnerAt(before.tables, slug).Owned?))
  }

  /** The actions are done one after the other. */
  ghost predicate AllDone(lib: Library, env: Env, actions: seq<Action>, moments: seq<Moment>, errs: seq<Option<Code>>) {
    && |moments| == |errs| + 1 && |errs| <= |actions|
    && forall i | 0 <= i < |errs| :: ActionDone(lib, env, actions[i], moments[i], moments[i + 1], errs[i])
  }

  lemma OneMoreDone(lib: Library, env: Env, actions: seq<Action>, moments: seq<Moment>, errs: seq<Option<Code>>, now: Moment, err: Option<Code>)
    requires AllDone(lib, env, actions, moments, errs) && |errs| < |actions|
    requires ActionDone(lib, env, actions[|errs|], moments[|errs|], now, err)
    ensures AllDone(lib, env, actions, moments + [now], errs + [err])
  {
    hide ActionDone;
  }

  ghost predicate HostsUniqueSince(trace: seq<Entry>, n: nat) {
    n <= |trace| && forall i | n <= i < |trace| :: HostsUnique(trace[i].after)
  }

  lemma LawfulHosts(cfg: Config, lib: Library, s: Spec, t0: Tables, trace: seq<Entry>, n: nat, t: Tables)
    requires HostsUnique(t0) && LawfulSince(cfg, lib, s, t0, trace, n) && Lawful(cfg, lib, s, t0, Entry(Read, t))
    ensures HostsUniqueSince(trace, n) && HostsUnique(t)
  {
    hide HostsUnique, ListsGrow, OthersUntouched, Realised, Converged, RightlyTyped, AccessKept;
  }

  lemma TeardownHosts(t0: Tables, slug: string, trace: seq<Entry>, n: nat, t: Tables)
    requires WellFormed(t0) && HostsUnique(t0)
    requires TeardownSteps(t0, slug, OwnerAt(t0, slug), trace, n) && TeardownStep(t0, slug, OwnerAt(t0, slug), t)
    ensures HostsUniqueSince(trace, n) && HostsUnique(t)
  {
    hide HostsUnique, TeardownStep, OwnerAt;
    forall u | TeardownStep(t0, slug, OwnerAt(t0, slug), u) ensures HostsUnique(u) {
      TeardownKeepsHosts(t0, slug, u);
    }
  }

  lemma TeardownKeepsHosts(t0: Tables, slug: string, t: Tables)
    requires WellFormed(t0) && HostsUnique(t0) && TeardownStep(t0, slug, OwnerAt(t0, slug), t)
    ensures HostsUnique(t)
  {
    match OwnerAt(t0, slug)
    case Unowned =>
    case Owned(kind, pk) => TeardownFrame(t0, slug, kind, pk, t);
  }

  lemma HostsJoin(trace: seq<Entry>, n: nat, before: seq<Entry>)
    requires before <= trace && HostsUniqueSince(before, n) && HostsUniqueSince(trace, |before|)
    ensures HostsUniqueSince(trace, n)
  {
    hide HostsUnique;
    assert forall i | n <= i < |before| :: trace[i] == before[i];
  }

  /** Whatever is reconciled and torn down, in whatever order and whatever fails, no two
      aboard-named forward-auth providers ever share an external host. */
  method RunJobs(api: Server, jobs: seq<Action>) returns (ghost moments: seq<Moment>, ghost errs: seq<Option<Code>>)
    requires api.Valid() && HostsUnique(api.tables)
    modifies api`tables, api`calls, api`trace, api`clock
    ensures api.Valid() && HostsUnique(api.tables)
    ensures old(api.trace) <= api.trace && HostsUniqueSince(api.trace, |old(api.trace)|)
    ensures AllDone(api.lib, api.env, jobs, moments, errs) && |errs| == |jobs|
    ensures moments[0].tables == old(api.tables) && moments[|jobs|].tables == api.tables
  {
    hide WellFormed, HostsUnique, ActionDone, AllDone;
    moments, errs := [Moment(api.tables, api.calls, |api.trace|, api.clock)], [];
    NothingDone(api.lib, api.env, jobs, moments);
    for i := 0 to |jobs|
      invariant api.Valid() && HostsUnique(api.tables)
      invariant old(api.trace) <= api.trace && HostsUniqueSince(api.trace, |old(api.trace)|)
      invariant |moments| == i + 1 && |errs| == i && AllDone(api.lib, api.env, jobs, moments, errs)
      invariant moments[0].tables == old(api.tables) && moments[i] == Moment(api.tables, api.calls, |api.trace|, api.clock)
    {
      ghost var t0, before := api.tables, api.trace;
      ghost var now, err := Do(api, jobs[i]);
      match jobs[i] {
        case Sync(cfg, spec) => LawfulHosts(cfg, api.lib, spec, t0, api.trace, |before|, api.tables);
        case Prune(slug) => TeardownHosts(t0, slug, api.trace, |before|, api.tables);
      }
      HostsJoin(api.trace, |old(api.trace)|, before);
      OneMoreDone(api.lib, api.env, jobs, moments, errs, now, err);
      moments, errs := moments + [now], errs + [err];
    }
  }

  lemma NothingDone(lib: Library, env: Env, actions: seq<Action>, moments: seq<Moment>)
    requires |moments| == 1
    ensures AllDone(lib, env, actions, moments, [])
  {
  }

  /** One action. */
  method Do(api: Server, action: Action) returns (ghost now: Moment, ghost err: Option<Code>)
    requires api.Valid()
    modifies api`tables, api`calls, api`trace, api`clock
    ensures api.Valid() && old(api.trace) <= api.trace && now == Moment(api.tables, api.calls, |api.trace|, api.clock)
    ensures ActionDone(api.lib, api.env, action, Moment(old(api.tables), old(api.calls), |old(api.trace)|, old(api.clock)), now, err)
    ensures match action
            case Sync(cfg, s) =>
              && LawfulSince(cfg, api.lib, s, old(api.tables), api.trace, |old(api.trace)|) && Lawful(cfg, api.lib, s, old(api.tables), Entry(Read, api.tables))
              && OnlyGrows(api.trace, |old(api.trace)|, api.tables)
            case Prune(slug) =>
              && TeardownSteps(old(api.tables), slug, OwnerAt(old(api.tables), slug), api.trace, |old(api.trace)|)
              && TeardownStep(old(api.tables), slug, OwnerAt(old(api.tables), slug), api.tables)
  {
    hide WellFormed, Lawful, LawfulSince, OnlyGrows, Converged, Errors, Admissible, Served, TeardownStep, TeardownSteps, StageOf, OwnerOf, AsAsked,
         PutAsAsked, KeptAsFound, Refusal, LiveInTime, NeverServed, NoClaim, OnEmbedded, DetachRequests;
    match action {
      case Sync(cfg, spec) =>
        var res, failed := Reconcile(api, cfg, spec);
        err := failed;
      case Prune(slug) =>
        var failed := Teardown(api, slug);
        err := failed;
    }
    now := Moment(api.tables, api.calls, |api.trace|, api.clock);
  }

  // One worker.

  lemma ListsGrowTransitive(a: Tables, b: Tables, c: Tables)
    requires ListsGrow(a, b) && ListsGrow(b, c)
    ensures ListsGrow(a, c)
  {
  }

  lemma LawfulGrows(cfg: Config, lib: Library, s: Spec, t0: Tables, trace: seq<Entry>, n: nat, t: Tables)
    requires LawfulSince(cfg, lib, s, t0, trace, n) && Lawful(cfg, lib, s, t0, Entry(Read, t))
    ensures ListsGrow(t0, t) && forall i | n <= i < |trace| :: ListsGrow(t0, trace[i].after)
  {
    hide HostsUnique, ListsGrow, OthersUntouched, Realised, Converged, RightlyTyped, AccessKept;
  }

  lemma GrowthJoins(trace: seq<Entry>, n: nat, before: seq<Entry>, t0: Tables, t: Tables)
    requires before <= trace && OnlyGrows(before, n, t0) && OnlyGrows(trace, |before|, t)
    requires ListsGrow(t0, t) && forall i | |before| <= i < |trace| :: ListsGrow(t0, trace[i].after)
    ensures OnlyGrows(trace, n, t)
  {
    hide ListsGrow;
    assert forall i | n <= i < |before| :: trace[i] == before[i];
    forall i | n <= i < |trace| ensures ListsGrow(trace[i].after, t) {
      if i < |before| {
        ListsGrowTransitive(trace[i].after, t0, t);
      }
    }
    forall i, j | n <= i <= j < |trace| ensures ListsGrow(trace[i].after, trace[j].after) {
      if i < |before| <= j {
        ListsGrowTransitive(trace[i].after, t0, trace[j].after);
      }
    }
  }

  /** One worker, whole jobs: over any run, with a failure possible at every request, a provider
      that is on an outpost's list at any moment is on it, at the same place, ever after. */
  method RunWorker(api: Server, jobs: seq<Action>) returns (ghost moments: seq<Moment>, ghost errs: seq<Option<Code>>)
    requires api.Valid() && forall i | 0 <= i < |jobs| :: jobs[i].Sync?
    modifies api`tables, api`calls, api`trace, api`clock
    ensures api.Valid() && old(api.trace) <= api.trace
    ensures OnlyGrows(api.trace, |old(api.trace)|, api.tables) && ListsGrow(old(api.tables), api.tables)
    ensures AllDone(api.lib, api.env, jobs, moments, errs) && |errs| == |jobs|
    ensures moments[0].tables == old(api.tables) && moments[|jobs|].tables == api.tables
  {
    hide WellFormed, ListsGrow, Lawful, LawfulSince, OnlyGrows, ActionDone, AllDone;
    GrowthStarts(api.trace, api.tables);
    moments, errs := [Moment(api.tables, api.calls, |api.trace|, api.clock)], [];
    NothingDone(api.lib, api.env, jobs, moments);
    for i := 0 to |jobs|
      invariant api.Valid() && old(api.trace) <= api.trace
      invariant OnlyGrows(api.trace, |old(api.trace)|, api.tables) && ListsGrow(old(api.tables), api.tables)
      invariant |moments| == i + 1 && |errs| == i && AllDone(api.lib, api.env, jobs, moments, errs)
      invariant moments[0].tables == old(api.tables) && moments[i] == Moment(api.tables, api.calls, |api.trace|, api.clock)
    {
      ghost var t0, before := api.tables, api.trace;
      ghost var now, err := Do(api, jobs[i]);
      LawfulGrows(jobs[i].cfg, api.lib, jobs[i].spec, t0, api.trace, |before|, api.tables);
      GrowthJoins(api.trace, |old(api.trace)|, before, t0, api.tables);
      ListsGrowTransitive(old(api.tables), t0, api.tables);
      OneMoreDone(api.lib, api.env, jobs, moments, errs, now, err);
      moments, errs := moments + [now], errs + [err];
    }
  }

  lemma GrowthStarts(trace: seq<Entry>, t: Tables)
    ensures OnlyGrows(trace, |trace|, t) && ListsGrow(t, t)
  {
  }

  // Running it again.

  lemma ConvergedStays(cfg: Config, lib: Library, s: Spec, t: Tables, trace: seq<Entry>, n: nat, after: Tables)
    requires Converged(cfg, lib, s, t) && LawfulSince(cfg, lib, s, t, trace, n) && Lawful(cfg, lib, s, t, Entry(Read, after))
    ensures after == t && OwnedAsWanted(t, s)
    ensures forall i | n <= i < |trace| :: trace[i].after == t
  {
    hide HostsUnique, ListsGrow, OthersUntouched, RightlyTyped, AccessKept, Marker, ExactlyBound, Overlay, OverlayApp, DesiredBody;
  }

  /** After a success, a second run without failures changes nothing at any step and adopts
      nothing, and the app then shows as live. `between` is the moment between the two runs. */
  method SecondRun(api: Server, cfg: Config, s: Spec)
    returns (first: Option<Code>, second: Option<Code>, adopted: bool, live: Reply<seq<LiveState>>, ghost between: Moment)
    requires api.Valid()
    modifies api`tables, api`calls, api`trace, api`clock
    ensures api.Valid() && old(api.trace) <= api.trace && between.recorded <= |api.trace|
    ensures Calm(api.env, old(api.calls)) && Admissible(cfg, api.lib, s, old(api.tables)) && Served(cfg, s, api.env, old(api.clock)) ==> first.None?
    ensures first.None? ==> Converged(cfg, api.lib, s, between.tables) && !adopted
    ensures first.None? ==> forall i | between.recorded <= i < |api.trace| :: api.trace[i].after == between.tables
    ensures first.None? && Calm(api.env, between.calls) && Served(cfg, s, api.env, between.clock) ==> second.None?
    ensures first.None? && Calm(api.env, between.calls) && Served(cfg, s, api.env, between.clock)
              && (s.provider.ForwardAuth? ==> OutpostName(cfg, s) == EMBEDDED)
            ==> live == Answer([LiveConfirmed])
  {
    hide WellFormed, Lawful, LawfulSince, OnlyGrows, Converged, Errors, OwnedAsWanted, Judged, NoClaim, Admissible, Served, AsAsked, PutAsAsked,
         KeptAsFound, Refusal, LiveInTime, NeverServed;
    ghost var lib := api.lib;
    second, adopted, live := None, false, Unreachable;
    var res, again;
    res, first := Reconcile(api, cfg, s);
    between := Moment(api.tables, api.calls, |api.trace|, api.clock);
    if first.Some? {
      return;
    }
    AfterSuccess(cfg, s, api);
    again, second := Reconcile(api, cfg, s);
    ConvergedStays(cfg, lib, s, between.tables, api.trace, between.recorded, api.tables);
    adopted := again.adopted;
    var check := Check(s.slug, s.host, s.provider);
    live := ConfirmLive(api, [check]);
    LiveWhenServed(cfg, lib, s, api, check);
    ServedMeans(cfg, s, api.env, between.clock);
    assert live.Answer? && second.None? && Calm(api.env, between.calls) && Served(cfg, s, api.env, between.clock)
             && (s.provider.ForwardAuth? ==> OutpostName(cfg, s) == EMBEDDED) ==>
             live.value == [LiveConfirmed];
  }

  lemma AfterSuccess(cfg: Config, s: Spec, api: Server)
    requires api.Valid() && Converged(cfg, api.lib, s, api.tables) && NoClaim(api.tables, s)
    ensures Admissible(cfg, api.lib, s, api.tables)
  {
    ConvergedIsAdmissible(cfg, api.lib, s, api.tables);
  }

  lemma ServedMeans(cfg: Config, s: Spec, env: Env, clock: nat)
    ensures Served(cfg, s, env, clock) && s.provider.ForwardAuth? && OutpostName(cfg, s) == EMBEDDED ==> s.host != ""
  {
  }

  /** What is converged, and served where forward auth asks for it, is never found drifted. */
  lemma LiveWhenServed(cfg: Config, lib: Library, s: Spec, api: Server, check: Check)
    requires api.Valid() && Converged(cfg, lib, s, api.tables) && check == Check(s.slug, s.host, s.provider)
    ensures (s.provider.ForwardAuth? ==> OutpostName(cfg, s) == EMBEDDED && api.env.serves(s.host, api.clock)) ==>
              !Judged(api.env, api.clock, api.tables, check, LiveDrift)
  {
    ConvergedIsLive(cfg, lib, s, api.tables, api.env.serves(s.host, api.clock));
    hide IsLive, Converged;
  }
}
