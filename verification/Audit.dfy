/** The audit of a container's Traefik routers: is what the labels declare protected behind the
    middleware, and does the login callback reach the outpost? */
module Audit {
  import opened Desired
  import opened Text
  import opened Routers

  datatype Setup = Setup(traefik: bool, middleware: string, url: string)

  datatype Finding = UnwiredMiddleware(router: string) | RouterUnknown(router: string) | MissingCallback | CallbackPriority

  datatype Report = Report(skipped: bool, findings: seq<Finding>, protected: seq<string>, public: seq<string>,
                           required: bool, satisfied: bool, priority: int, fleet: bool)

  type Fleet = map<string, Router>

  /** The priority Traefik routes on. A label of -1 reads as no priority at all. */
  function Effective(r: Router): int {
    if r.priority != UNSET then r.priority else Bytes(r.rule)
  }

  function OnHost(rs: Fleet, app: Spec): set<string> {
    set n | n in rs && app.host in rs[n].hosts
  }

  function Callbacks(rs: Fleet, app: Spec): set<string> {
    set n | n in OnHost(rs, app) && IsCallbackRule(rs[n].rule)
  }

  /** The named routers, or every router of the host that is not a callback. */
  function Protected(rs: Fleet, app: Spec): set<string> {
    if app.routers == [] then OnHost(rs, app) - Callbacks(rs, app) else set n | n in app.routers && n in rs
  }

  /** Routers of the host that are left open on purpose. */
  function Public(rs: Fleet, app: Spec): set<string> {
    OnHost(rs, app) - Callbacks(rs, app) - Protected(rs, app)
  }

  /** The highest priority among the routers, and at least zero. */
  ghost predicate IsTop(rs: Fleet, names: set<string>, top: int) {
    && 0 <= top && (forall n | n in names && n in rs :: Effective(rs[n]) <= top)
    && (top == 0 || exists n :: n in names && n in rs && Effective(rs[n]) == top)
  }

  /** Some callback carries the middleware and outranks every public router. It must outrank zero as
      well. */
  ghost predicate CallbackWins(rs: Fleet, app: Spec, mw: string) {
    exists c :: c in Callbacks(rs, app) && mw in rs[c].middlewares && Effective(rs[c]) > 0
                && forall n | n in Public(rs, app) :: Effective(rs[c]) > Effective(rs[n])
  }

  ghost predicate Skipped(setup: Setup, app: Spec) {
    !setup.traefik || !app.provider.ForwardAuth?
  }

  /** What the audit must report about routers `rs`. */
  ghost predicate IsReport(setup: Setup, app: Spec, rs: Fleet, fleet: bool, a: Report) {
    && a.skipped == Skipped(setup, app) && a.fleet == fleet
    && (a.skipped ==> a.findings == [] && a.protected == [] && !a.required && !a.satisfied)
    && (!a.skipped ==>
          && (forall n :: n in a.protected <==> n in Protected(rs, app))
          && (forall n :: n in a.public <==> n in Public(rs, app))
          && (a.required <==> Public(rs, app) != {})
          && (a.satisfied <==> !a.required || fleet || CallbackWins(rs, app, setup.middleware))
          && (exists top :: IsTop(rs, OnHost(rs, app), top) && a.priority == Wrap64(top + 10))
          && (forall f :: f in a.findings <==> IsFinding(setup, app, rs, a, f)))
  }

  /** What is wrong, exactly. */
  ghost predicate IsFinding(setup: Setup, app: Spec, rs: Fleet, a: Report, f: Finding) {
    match f
    case UnwiredMiddleware(n) => n in Protected(rs, app) && setup.middleware !in rs[n].middlewares
    case RouterUnknown(n) => n in app.routers && n !in rs
    case MissingCallback => a.required && !a.satisfied && Callbacks(rs, app) == {}
    case CallbackPriority => a.required && !a.satisfied && Callbacks(rs, app) != {}
  }

  /** The members of a finite set, in an arbitrary order. */
  method Listing(s: set<string>) returns (q: seq<string>)
    ensures forall x :: x in q <==> x in s
    ensures forall i | 0 <= i < |q| :: q[i] in s
  {
    q := [];
    var rest := s;
    while rest != {}
      invariant forall x | x in s :: x in q || x in rest
      invariant forall x | x in q :: x in s
      invariant rest <= s
    {
      var x :| x in rest;
      q := q + [x];
      rest := rest - {x};
    }
    assert forall i | 0 <= i < |q| :: q[i] in q;
  }

  method ResolveProtected(app: Spec, rs: Fleet, host: seq<string>) returns (out: seq<string>, unknown: seq<Finding>)
    requires forall n :: n in host <==> n in OnHost(rs, app)
    ensures forall n :: n in out <==> n in Protected(rs, app)
    ensures forall f :: f in unknown <==> f.RouterUnknown? && f.router in app.routers && f.router !in rs
  {
    out, unknown := [], [];
    if app.routers == [] {
      for i := 0 to |host|
        invariant forall n :: n in out <==> n in host[..i] && n in OnHost(rs, app) && !IsCallbackRule(rs[n].rule)
      {
        assert host[..i + 1] == host[..i] + [host[i]] && host[i] in host;
        if !IsCallbackRule(rs[host[i]].rule) {
          out := out + [host[i]];
        }
      }
      assert host[..|host|] == host;
      return;
    }
    for i := 0 to |app.routers|
      invariant forall n :: n in out <==> n in app.routers[..i] && n in rs
      invariant forall f :: f in unknown <==> f.RouterUnknown? && f.router in app.routers[..i] && f.router !in rs
    {
      assert app.routers[..i + 1] == app.routers[..i] + [app.routers[i]];
      if app.routers[i] !in rs {
        unknown := unknown + [RouterUnknown(app.routers[i])];
      } else {
        out := out + [app.routers[i]];
      }
    }
    assert app.routers[..|app.routers|] == app.routers;
  }

  method MaxEffectivePriority(rs: Fleet, names: seq<string>) returns (max: int)
    requires forall i | 0 <= i < |names| :: names[i] in rs
    ensures IsTop(rs, (set n | n in names), max)
  {
    max := 0;
    for i := 0 to |names|
      invariant IsTop(rs, (set n | n in names[..i]), max)
    {
      assert names[..i + 1] == names[..i] + [names[i]];
      ghost var before := max;
      if Effective(rs[names[i]]) > max {
        max := Effective(rs[names[i]]);
        assert names[i] in names[..i + 1];
      }
      assert forall n | n in names[..i] :: n in names[..i + 1];
    }
    assert names[..|names|] == names;
  }

  /** The routers of the host, and the callbacks among them. */
  method HostRouters(rs: Fleet, app: Spec) returns (host: seq<string>, callbacks: seq<string>)
    ensures forall n :: n in host <==> n in OnHost(rs, app)
    ensures forall n :: n in callbacks <==> n in Callbacks(rs, app)
  {
    var names := Listing(rs.Keys);
    host, callbacks := [], [];
    for i := 0 to |names|
      invariant forall n :: n in host <==> n in names[..i] && n in OnHost(rs, app)
      invariant forall n :: n in callbacks <==> n in names[..i] && n in Callbacks(rs, app)
    {
      assert names[..i + 1] == names[..i] + [names[i]];
      if app.host in rs[names[i]].hosts {
        host := host + [names[i]];
        if IsCallbackRule(rs[names[i]].rule) {
          callbacks := callbacks + [names[i]];
        }
      }
    }
    assert names[..|names|] == names;
  }

  predicate Unwired(rs: Fleet, mw: string, n: string) {
    n in rs && mw !in rs[n].middlewares
  }

  method FindUnwired(rs: Fleet, mw: string, protected: seq<string>) returns (findings: seq<Finding>)
    requires forall n | n in protected :: n in rs
    ensures forall f :: f in findings <==> f.UnwiredMiddleware? && f.router in protected && Unwired(rs, mw, f.router)
  {
    findings := [];
    for i := 0 to |protected|
      invariant forall f :: f in findings <==> f.UnwiredMiddleware? && f.router in protected[..i] && Unwired(rs, mw, f.router)
    {
      assert protected[..i + 1] == protected[..i] + [protected[i]] && protected[i] in protected;
      if mw !in rs[protected[i]].middlewares {
        findings := findings + [UnwiredMiddleware(protected[i])];
      }
    }
    assert protected[..|protected|] == protected;
  }

  method FindPublic(rs: Fleet, app: Spec, host: seq<string>, protected: seq<string>) returns (public: seq<string>)
    requires forall n :: n in host <==> n in OnHost(rs, app)
    requires forall n :: n in protected <==> n in Protected(rs, app)
    ensures forall n :: n in public <==> n in Public(rs, app)
  {
    public := [];
    for i := 0 to |host|
      invariant forall n :: n in public <==> n in host[..i] && n in Public(rs, app)
    {
      assert host[..i + 1] == host[..i] + [host[i]] && host[i] in host;
      if !(IsCallbackRule(rs[host[i]].rule) || host[i] in protected) {
        public := public + [host[i]];
      }
    }
    assert host[..|host|] == host;
  }

  /** Looks for a callback that carries the middleware and outranks the public routers. */
  method AnyWins(rs: Fleet, app: Spec, mw: string, callbacks: seq<string>, public: seq<string>) returns (found: bool)
    requires forall n :: n in callbacks <==> n in Callbacks(rs, app)
    requires forall n :: n in public <==> n in Public(rs, app)
    ensures found <==> CallbackWins(rs, app, mw)
  {
    assert forall i | 0 <= i < |public| :: public[i] in public;
    var maxPublic := MaxEffectivePriority(rs, public);
    assert (set n | n in public) == Public(rs, app);
    assert forall i | 0 <= i < |callbacks| :: callbacks[i] in callbacks && callbacks[i] in Callbacks(rs, app);
    for i := 0 to |callbacks|
      invariant forall j | 0 <= j < i :: !(mw in rs[callbacks[j]].middlewares && Effective(rs[callbacks[j]]) > maxPublic)
    {
      if mw in rs[callbacks[i]].middlewares && Effective(rs[callbacks[i]]) > maxPublic {
        return true;
      }
    }
    return false;
  }

  method CallbackPriorityAbove(rs: Fleet, app: Spec, host: seq<string>) returns (priority: int)
    requires forall n :: n in host <==> n in OnHost(rs, app)
    ensures exists top :: IsTop(rs, OnHost(rs, app), top) && priority == Wrap64(top + 10)
  {
    assert forall i | 0 <= i < |host| :: host[i] in host;
    var top := MaxEffectivePriority(rs, host);
    assert (set n | n in host) == OnHost(rs, app);
    priority := Wrap64(top + 10);
  }

  lemma EmptyMeans<T>(q: seq<T>, s: set<T>)
    requires forall x :: x in q <==> x in s
    ensures q == [] <==> s == {}
  {
    assert q != [] ==> q[0] in q;
  }

  /** Audits one container. */
  method Verify(setup: Setup, app: Spec, labels: Labels, fleet: bool) returns (a: Report)
    ensures IsReport(setup, app, RoutersOf(labels), fleet, a)
    ensures a.skipped <==> !setup.traefik || !app.provider.ForwardAuth?
    // Router by router, without the sets.
    ensures !a.skipped ==> var rs := RoutersOf(labels); forall n | n in rs && app.host in rs[n].hosts :: JudgedByRule(setup, app, a, n, rs[n])
    ensures !a.skipped ==> CallbackJudged(setup, app, RoutersOf(labels), fleet, a)
  {
    hide CallbackJudged;
    hide RoutersOf, IsTop, OnHost, Callbacks, Public, CallbackWins, IsCallbackRule, Wrap64, JudgedByRule;
    a := Report(false, [], [], [], false, false, 0, fleet);
    if !setup.traefik || !app.provider.ForwardAuth? {
      a := a.(skipped := true);
      return;
    }
    var rs := ParseRouters(labels);
    var host, callbacks := HostRouters(rs, app);
    var protected, findings := ResolveProtected(app, rs, host);
    assert forall n | n in Protected(rs, app) :: n in rs by { ProtectedExist(rs, app); }
    hide Protected;
    var unwired := FindUnwired(rs, setup.middleware, protected);
    findings := findings + unwired;
    var public := FindPublic(rs, app, host, protected);
    var priority := CallbackPriorityAbove(rs, app, host);
    EmptyMeans(public, Public(rs, app));
    EmptyMeans(callbacks, Callbacks(rs, app));
    a := a.(protected := protected, public := public, required := public != [], priority := priority);
    if public == [] || fleet {
      a := a.(satisfied := true, findings := findings);
      ReportJudges(setup, app, rs, fleet, a);
      ReportJudgesCallback(setup, app, rs, fleet, a);
      return;
    }
    var satisfied := AnyWins(rs, app, setup.middleware, callbacks, public);
    NoCallbackNoWin(rs, app, setup.middleware);
    if callbacks == [] {
      findings := findings + [MissingCallback];
    } else if !satisfied {
      findings := findings + [CallbackPriority];
    }
    a := a.(satisfied := satisfied, findings := findings);
    ReportJudges(setup, app, rs, fleet, a);
    ReportJudgesCallback(setup, app, rs, fleet, a);
  }

  /** A path matcher and the outpost's path, both somewhere in the rule. */
  ghost predicate MentionsCallback(rule: string) {
    && (exists i: nat :: OccursAt(rule, "PathPrefix(", i))
    && exists i: nat :: OccursAt(rule, "/outpost.goauthentik.io/", i)
  }

  /** What becomes of one router of the host, going by its rule, its middlewares and the names in the labels. */
  ghost predicate JudgedByRule(setup: Setup, app: Spec, a: Report, name: string, r: Router) {
    && (app.routers != [] ==> (name in a.protected <==> name in app.routers))
    && (app.routers == [] ==> (name in a.protected <==> !MentionsCallback(r.rule)))
    && (name in a.public <==> !MentionsCallback(r.rule) && app.routers != [] && name !in app.routers)
    && (UnwiredMiddleware(name) in a.findings <==> name in a.protected && setup.middleware !in r.middlewares)
  }

  /** Whether the login callback is reached: nothing public beside the protected routers, or the fleet's own callback, or one on this
      host whose rule, middlewares and priority all fit. */
  ghost predicate CallbackJudged(setup: Setup, app: Spec, rs: Fleet, fleet: bool, a: Report) {
    && (a.required <==> exists n :: n in a.public)
    && (a.satisfied <==> !a.required || fleet || exists c :: Reaches(setup, app, rs, a, c))
    && (MissingCallback in a.findings <==> a.required && !fleet && forall c | c in rs && app.host in rs[c].hosts :: !MentionsCallback(rs[c].rule))
    && (CallbackPriority in a.findings <==>
          a.required && !a.satisfied && exists c :: c in rs && app.host in rs[c].hosts && MentionsCallback(rs[c].rule))
  }

  /** The priority that is written, or the length of the rule. */
  ghost predicate RoutesAt(r: Router, priority: int) {
    if r.priority != -1 then priority == r.priority else priority == Bytes(r.rule)
  }

  ghost predicate Reaches(setup: Setup, app: Spec, rs: Fleet, a: Report, c: string) {
    && c in rs && app.host in rs[c].hosts && MentionsCallback(rs[c].rule) && setup.middleware in rs[c].middlewares
    && exists p :: RoutesAt(rs[c], p) && p > 0 && forall n, q | n in a.public && n in rs && RoutesAt(rs[n], q) :: p > q
  }

  lemma ReachesIsWinning(setup: Setup, app: Spec, rs: Fleet, fleet: bool, a: Report, c: string)
    requires IsReport(setup, app, rs, fleet, a) && !a.skipped
    ensures Reaches(setup, app, rs, a, c) <==>
              c in Callbacks(rs, app) && setup.middleware in rs[c].middlewares && Effective(rs[c]) > 0
              && forall n | n in Public(rs, app) :: Effective(rs[c]) > Effective(rs[n])
  {
    hide IsTop, CallbackWins, Wrap64, Bytes, IsFinding;
    if c in rs {
      RuleMentions(rs[c].rule);
      assert RoutesAt(rs[c], Effective(rs[c]));
      assert forall n | n in Public(rs, app) :: n in rs && RoutesAt(rs[n], Effective(rs[n]));
    }
    hide IsCallbackRule, MentionsCallback;
  }

  lemma RuleMentions(rule: string)
    ensures IsCallbackRule(rule) <==> MentionsCallback(rule)
  {
    if i: nat :| OccursAt(rule, "PathPrefix(", i) {
      assert 0 <= i <= |rule|;
    }
    if i: nat :| OccursAt(rule, "/outpost.goauthentik.io/", i) {
      assert 0 <= i <= |rule|;
    }
  }

  lemma ReportJudgesCallback(setup: Setup, app: Spec, rs: Fleet, fleet: bool, a: Report)
    requires IsReport(setup, app, rs, fleet, a) && !a.skipped
    ensures CallbackJudged(setup, app, rs, fleet, a)
  {
    hide IsTop, Wrap64, Bytes, Effective;
    forall c ensures Reaches(setup, app, rs, a, c) <==>
                       c in Callbacks(rs, app) && setup.middleware in rs[c].middlewares && Effective(rs[c]) > 0
                       && forall n | n in Public(rs, app) :: Effective(rs[c]) > Effective(rs[n])
    {
      ReachesIsWinning(setup, app, rs, fleet, a, c);
    }
    forall c | c in rs ensures c in Callbacks(rs, app) <==> app.host in rs[c].hosts && MentionsCallback(rs[c].rule) {
      RuleMentions(rs[c].rule);
    }
    hide Reaches, IsCallbackRule, MentionsCallback;
    EmptyMeans(a.public, Public(rs, app));
    assert MissingCallback in a.findings <==> IsFinding(setup, app, rs, a, MissingCallback);
    assert CallbackPriority in a.findings <==> IsFinding(setup, app, rs, a, CallbackPriority);
    NoCallbackNoWin(rs, app, setup.middleware);
    hide Public;
  }

  lemma ReportJudges(setup: Setup, app: Spec, rs: Fleet, fleet: bool, a: Report)
    requires IsReport(setup, app, rs, fleet, a) && !a.skipped
    ensures forall n | n in rs && app.host in rs[n].hosts :: JudgedByRule(setup, app, a, n, rs[n])
  {
    hide IsTop, CallbackWins, Wrap64, Effective;
    forall rule ensures IsCallbackRule(rule) <==> MentionsCallback(rule) {
      RuleMentions(rule);
    }
    hide IsCallbackRule, MentionsCallback, OccursAt;
    forall n | n in rs && app.host in rs[n].hosts ensures JudgedByRule(setup, app, a, n, rs[n]) {
      assert UnwiredMiddleware(n) in a.findings <==> IsFinding(setup, app, rs, a, UnwiredMiddleware(n));
    }
  }

  lemma ProtectedExist(rs: Fleet, app: Spec)
    ensures forall n | n in Protected(rs, app) :: n in rs
  {
  }

  lemma NoCallbackNoWin(rs: Fleet, app: Spec, mw: string)
    ensures CallbackWins(rs, app, mw) ==> Callbacks(rs, app) != {}
  {
  }
}
