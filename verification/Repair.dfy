/** The labels aboard tells an operator to paste, and whether pasting them repairs what the audit
    found. */
module Repair {
  import opened Options
  import opened Desired
  import opened Text
  import opened Routers
  import opened Audit

  /** One rendered label: key and value. */
  type Line = (string, string)

  const SERVICE := "authentik-svc"

  function CallbackRule(host: string): string {
    HostMatch(host) + " && PathPrefix(`" + CALLBACK_PATH + "`)"
  }

  function TrimSlashes(url: string): string {
    if url != "" && url[|url| - 1] == '/' then TrimSlashes(url[..|url| - 1]) else url
  }

  function MiddlewareLines(mw: string, names: seq<string>): seq<Line> {
    seq(|names|, i requires 0 <= i < |names| => (LabelKey(names[i], "middlewares"), mw))
  }

  function CallbackName(app: Spec): string {
    app.slug + "-outpost"
  }

  /** The fields of the callback router. */
  function CallbackFields(setup: Setup, app: Spec, priority: int): seq<(string, string)> {
    [("rule", CallbackRule(app.host)), ("entrypoints", "websecure"), ("tls", "true"), ("tls.certresolver", "cloudflare"),
     ("middlewares", setup.middleware), ("service", SERVICE), ("priority", Itoa(priority))]
  }

  function FieldLines(name: string, fields: seq<(string, string)>): seq<Line> {
    seq(|fields|, i requires 0 <= i < |fields| => (LabelKey(name, fields[i].0), fields[i].1))
  }

  function ServiceLine(setup: Setup): Line {
    ("traefik.http.services." + SERVICE + ".loadbalancer.server.url", TrimSlashes(setup.url))
  }

  /** The callback router and the service it points at. */
  function CallbackBlock(setup: Setup, app: Spec, priority: int): seq<Line> {
    FieldLines(CallbackName(app), CallbackFields(setup, app, priority)) + [ServiceLine(setup)]
  }

  function NeedsBlock(a: Report): bool {
    a.required && !a.satisfied
  }

  function Rendered(setup: Setup, app: Spec, a: Report): seq<Line> {
    if a.skipped then []
    else MiddlewareLines(setup.middleware, a.protected) + if NeedsBlock(a) then CallbackBlock(setup, app, a.priority) else []
  }

  /** `url` without the slashes at its end. */
  ghost predicate WithoutSlashes(url: string, bare: string) {
    bare <= url && (forall i | |bare| <= i < |url| :: url[i] == '/') && (bare != "" ==> bare[|bare| - 1] != '/')
  }

  /** The lines to paste: the middleware for each protected router, and where one is needed a callback router. */
  ghost predicate LinesAsWritten(setup: Setup, app: Spec, a: Report, lines: seq<Line>) {
    && (forall n | n in a.protected :: ("traefik.http.routers." + n + ".middlewares", setup.middleware) in lines)
    && |lines| == |a.protected| + (if a.required && !a.satisfied then 8 else 0)
    && (a.required && !a.satisfied ==> BlockAsWritten(setup, app, a.priority, lines))
  }

  /** A callback router whose service is the one that is defined beside it, at Authentik's own address. */
  ghost predicate BlockAsWritten(setup: Setup, app: Spec, priority: int, lines: seq<Line>) {
    var router := "traefik.http.routers." + (app.slug + "-outpost") + ".";
    && (router + "rule", "Host(`" + app.host + "`)" + " && PathPrefix(`/outpost.goauthentik.io/`)") in lines
    && (router + "entrypoints", "websecure") in lines && (router + "tls", "true") in lines
    && (router + "tls.certresolver", "cloudflare") in lines && (router + "middlewares", setup.middleware) in lines
    && (router + "priority", Itoa(priority)) in lines
    && exists service: string, url: string :: PointsTo(lines, router, service, url) && WithoutSlashes(setup.url, url)
  }

  ghost predicate PointsTo(lines: seq<Line>, router: string, service: string, url: string) {
    && (router + "service", service) in lines
    && ("traefik.http.services." + service + ".loadbalancer.server.url", url) in lines
  }

  lemma {:induction false} SlashesAreTrimmed(url: string)
    ensures WithoutSlashes(url, TrimSlashes(url))
  {
    if url != "" && url[|url| - 1] == '/' {
      SlashesAreTrimmed(url[..|url| - 1]);
    }
  }

  lemma RuleIsWritten(host: string)
    ensures CallbackRule(host) == "Host(`" + host + "`)" + " && PathPrefix(`/outpost.goauthentik.io/`)"
  {
    assert " && PathPrefix(`" + CALLBACK_PATH + "`)" == " && PathPrefix(`/outpost.goauthentik.io/`)";
    assert HostMatch(host) == "Host(`" + host + "`)";
    assert HostMatch(host) + " && PathPrefix(`" + CALLBACK_PATH + "`)" == HostMatch(host) + (" && PathPrefix(`" + CALLBACK_PATH + "`)");
  }

  lemma BlockIsWritten(setup: Setup, app: Spec, priority: int)
    ensures BlockAsWritten(setup, app, priority, CallbackBlock(setup, app, priority)) && |CallbackBlock(setup, app, priority)| == 8
  {
    hide Itoa, TrimSlashes, WithoutSlashes, CallbackRule;
    RuleIsWritten(app.host);
    var lines := CallbackBlock(setup, app, priority);
    var router := "traefik.http.routers." + (app.slug + "-outpost") + ".";
    var fields := CallbackFields(setup, app, priority);
    forall i | 0 <= i < 7 ensures (router + fields[i].0, fields[i].1) in lines {
      assert lines[i] == (LabelKey(CallbackName(app), fields[i].0), fields[i].1);
      assert LabelKey(CallbackName(app), fields[i].0) == router + fields[i].0;
    }
    assert fields[0].0 == "rule" && fields[1].0 == "entrypoints" && fields[2].0 == "tls" && fields[3].0 == "tls.certresolver";
    assert fields[4].0 == "middlewares" && fields[5].0 == "service" && fields[6].0 == "priority";
    assert lines[7] == ServiceLine(setup);
    SlashesAreTrimmed(setup.url);
    hide FieldLines, LabelKey;
    assert PointsTo(lines, router, SERVICE, TrimSlashes(setup.url));
  }

  lemma MiddlewaresAreWritten(mw: string, names: seq<string>)
    ensures |MiddlewareLines(mw, names)| == |names|
    ensures forall n | n in names :: ("traefik.http.routers." + n + ".middlewares", mw) in MiddlewareLines(mw, names)
  {
    var lines := MiddlewareLines(mw, names);
    forall n | n in names ensures ("traefik.http.routers." + n + ".middlewares", mw) in lines {
      var i :| 0 <= i < |names| && names[i] == n;
      assert lines[i] == (LabelKey(n, "middlewares"), mw);
      assert LabelKey(n, "middlewares") == "traefik.http.routers." + n + ".middlewares";
    }
  }

  lemma BlockAmongLines(setup: Setup, app: Spec, priority: int, block: seq<Line>, lines: seq<Line>)
    requires BlockAsWritten(setup, app, priority, block) && forall line | line in block :: line in lines
    ensures BlockAsWritten(setup, app, priority, lines)
  {
    hide Itoa, WithoutSlashes;
    var router := "traefik.http.routers." + (app.slug + "-outpost") + ".";
    var service: string, url: string :| PointsTo(block, router, service, url) && WithoutSlashes(setup.url, url);
    assert PointsTo(lines, router, service, url);
  }

  lemma RenderedAsWritten(setup: Setup, app: Spec, a: Report)
    ensures !a.skipped ==> LinesAsWritten(setup, app, a, Rendered(setup, app, a))
  {
    hide CallbackBlock, MiddlewareLines, BlockAsWritten;
    if !a.skipped {
      MiddlewaresAreWritten(setup.middleware, a.protected);
      BlockIsWritten(setup, app, a.priority);
      if NeedsBlock(a) {
        BlockAmongLines(setup, app, a.priority, CallbackBlock(setup, app, a.priority), Rendered(setup, app, a));
      }
    }
  }

  /** Prints the labels for one service. */
  method RenderService(setup: Setup, app: Spec, a: Report) returns (lines: seq<Line>)
    ensures lines == Rendered(setup, app, a)
    ensures !a.skipped ==> LinesAsWritten(setup, app, a, lines)
  {
    RenderedAsWritten(setup, app, a);
    hide LinesAsWritten;
    lines := [];
    if a.skipped {
      return;
    }
    for i := 0 to |a.protected|
      invariant lines == MiddlewareLines(setup.middleware, a.protected[..i])
    {
      lines := lines + [(LabelKey(a.protected[i], "middlewares"), setup.middleware)];
    }
    assert a.protected[..|a.protected|] == a.protected;
    if a.required && !a.satisfied {
      lines := lines + CallbackBlock(setup, app, a.priority);
    }
  }

  /** The container's labels with the lines pasted over them. */
  function Pasted(labels: Labels, lines: seq<Line>): Labels {
    if lines == [] then labels else Pasted(labels, lines[..|lines| - 1])[lines[|lines| - 1].0 := lines[|lines| - 1].1]
  }

  lemma {:induction false} PastedTwice(labels: Labels, a: seq<Line>, b: seq<Line>)
    ensures Pasted(labels, a + b) == Pasted(Pasted(labels, a), b)
  {
    if b == [] {
      assert a + b == a;
    } else {
      assert (a + b)[..|a + b| - 1] == a + b[..|b| - 1];
      PastedTwice(labels, a, b[..|b| - 1]);
    }
  }

  /** What pasting one field does to its router. */
  function Put(r: Router, field: string, v: string): Router {
    match field
    case "rule" => r.(rule := v, hosts := HostLiterals(v))
    case "middlewares" => r.(middlewares := Fields(v))
    case "priority" => r.(priority := PriorityOf(v))
    case "service" => r.(service := v)
    case _ => r
  }

  function Patch(rs: Fleet, name: string, field: string, v: string): Fleet {
    rs[name := Put(if name in rs then rs[name] else BLANK, field, v)]
  }

  lemma RouterWithPaste(labels: Labels, n: string, field: string, v: string, m: string)
    requires '.' !in n && '.' !in m
    ensures RouterOf(labels[LabelKey(n, field) := v], m) == if m == n then Put(RouterOf(labels, n), field, v) else RouterOf(labels, m)
  {
    KeysAreApart(n, field, m, "rule");
    KeysAreApart(n, field, m, "middlewares");
    KeysAreApart(n, field, m, "priority");
    KeysAreApart(n, field, m, "service");
    hide HostLiterals, Fields, LabelKey, PriorityOf;
  }

  /** Dot-free names and their fields never share a key. */
  lemma KeysAreApart(n: string, f: string, m: string, g: string)
    requires '.' !in n && '.' !in m
    ensures LabelKey(n, f) == LabelKey(m, g) <==> n == m && f == g
  {
    KeyIsRead(LabelKey(n, f), n, f);
    KeyIsRead(LabelKey(n, f), m, g);
  }

  /** Pasting a field over the labels patches that router and no other. */
  lemma PasteOne(labels: Labels, n: string, field: string, v: string)
    requires '.' !in n
    ensures RoutersOf(labels[LabelKey(n, field) := v]) == Patch(RoutersOf(labels), n, field, v)
  {
    hide HostLiterals, Fields, LabelKey, PriorityOf, RouterOf, NameField, Put;
    var after := labels[LabelKey(n, field) := v];
    NamesWithPaste(labels, n, field, v);
    if n !in Names(labels) {
      UnnamedIsBlank(labels, n);
    }
    forall m | m in Names(after) ensures RouterOf(after, m) == if m == n then Put(RouterOf(labels, n), field, v) else RouterOf(labels, m) {
      RouterWithPaste(labels, n, field, v, m);
    }
  }

  lemma NamesWithPaste(labels: Labels, n: string, field: string, v: string)
    requires '.' !in n
    ensures Names(labels[LabelKey(n, field) := v]) == Names(labels) + {n}
    ensures forall m | m in Names(labels) :: '.' !in m
  {
    KeyIsRead(LabelKey(n, field), n, field);
    hide NameField, LabelKey;
    var after := labels[LabelKey(n, field) := v];
    forall m | m in Names(labels) ensures m in Names(after) {
      var k :| k in labels && NameField(k).Some? && NameField(k).value.0 == m;
      assert k in after;
    }
    assert LabelKey(n, field) in after;
  }

  lemma NotARouterLabel(labels: Labels, k: string, v: string)
    requires NameField(k).None?
    ensures RoutersOf(labels[k := v]) == RoutersOf(labels)
  {
    var after := labels[k := v];
    assert Names(after) == Names(labels);
    forall m | m in Names(labels) ensures RouterOf(after, m) == RouterOf(labels, m) {
      KeyIsRead(k, m, "rule");
      KeyIsRead(k, m, "middlewares");
      KeyIsRead(k, m, "priority");
      KeyIsRead(k, m, "service");
    }
  }

  // The routers after pasting.

  /** Every router in `names` carries just the one middleware list. */
  function Wired(rs: Fleet, names: seq<string>, mw: string): Fleet {
    map n | n in rs :: if n in names then rs[n].(middlewares := Fields(mw)) else rs[n]
  }

  lemma WiredOneMore(rs: Fleet, names: seq<string>, last: string, mw: string)
    requires last in rs
    ensures Patch(Wired(rs, names, mw), last, "middlewares", mw) == Wired(rs, names + [last], mw)
  {
    hide Fields, HostLiterals, PriorityOf;
  }

  lemma {:induction false} MiddlewaresPasted(labels: Labels, names: seq<string>, mw: string)
    requires forall n | n in names :: n in RoutersOf(labels)
    ensures RoutersOf(Pasted(labels, MiddlewareLines(mw, names))) == Wired(RoutersOf(labels), names, mw)
  {
    hide RoutersOf, Patch, LabelKey;
    var rs := RoutersOf(labels);
    if names == [] {
      assert Wired(rs, names, mw) == rs;
    } else {
      var before, last := names[..|names| - 1], names[|names| - 1];
      assert names == before + [last];
      MiddlewaresPasted(labels, before, mw);
      var lines := MiddlewareLines(mw, names);
      assert lines[..|lines| - 1] == MiddlewareLines(mw, before);
      RouterNames(labels, last);
      PasteOne(Pasted(labels, MiddlewareLines(mw, before)), last, "middlewares", mw);
      WiredOneMore(rs, before, last, mw);
    }
  }

  lemma RouterNames(labels: Labels, n: string)
    requires n in RoutersOf(labels)
    ensures '.' !in n
  {
  }

  function PutAll(r: Router, fields: seq<(string, string)>): Router {
    if fields == [] then r else Put(PutAll(r, fields[..|fields| - 1]), fields[|fields| - 1].0, fields[|fields| - 1].1)
  }

  lemma {:induction false} FieldsPasted(labels: Labels, name: string, fields: seq<(string, string)>)
    requires '.' !in name && fields != []
    ensures RoutersOf(Pasted(labels, FieldLines(name, fields))) ==
              RoutersOf(labels)[name := PutAll(if name in RoutersOf(labels) then RoutersOf(labels)[name] else BLANK, fields)]
  {
    hide RoutersOf, Put, LabelKey;
    var before, last := fields[..|fields| - 1], fields[|fields| - 1];
    var lines := FieldLines(name, fields);
    assert lines[..|lines| - 1] == FieldLines(name, before);
    PasteOne(Pasted(labels, FieldLines(name, before)), name, last.0, last.1);
    if before == [] {
      assert PutAll(BLANK, before) == BLANK;
    } else {
      FieldsPasted(labels, name, before);
    }
  }

  function NewCallback(setup: Setup, app: Spec, priority: int): Router {
    Router(CallbackRule(app.host), HostLiterals(CallbackRule(app.host)), Fields(setup.middleware), PriorityOf(Itoa(priority)), SERVICE)
  }

  /** The block says all there is to say about a router: what stood there before is gone. */
  lemma AllFieldsPut(r: Router, setup: Setup, app: Spec, priority: int)
    ensures PutAll(r, CallbackFields(setup, app, priority)) == NewCallback(setup, app, priority)
  {
    hide CallbackRule, HostLiterals, Fields, PriorityOf, Itoa;
    var f := CallbackFields(setup, app, priority);
    forall i | 0 <= i < 7 ensures PutAll(r, f[..i + 1]) == Put(PutAll(r, f[..i]), f[i].0, f[i].1) {
      assert f[..i + 1][..i] == f[..i];
    }
    assert f[..7] == f;
    hide PutAll;
    assert PutAll(r, f[..0]) == r by { NothingPut(r); }
    assert PutAll(r, f[..4]) == PutAll(r, f[..1]);
  }

  lemma NothingPut(r: Router)
    ensures PutAll(r, []) == r
  {
  }

  lemma BlockPasted(labels: Labels, setup: Setup, app: Spec, priority: int)
    requires '.' !in CallbackName(app)
    ensures RoutersOf(Pasted(labels, CallbackBlock(setup, app, priority))) ==
              RoutersOf(labels)[CallbackName(app) := NewCallback(setup, app, priority)]
  {
    hide RoutersOf, PutAll, CallbackFields, NewCallback, FieldLines, Pasted;
    var name, fields := CallbackName(app), CallbackFields(setup, app, priority);
    var lines := FieldLines(name, fields);
    SevenFields(setup, app, priority);
    FieldsPasted(labels, name, fields);
    AllFieldsPut(if name in RoutersOf(labels) then RoutersOf(labels)[name] else BLANK, setup, app, priority);
    PasteLast(labels, lines, ServiceLine(setup));
    ServiceIsNoRouter(setup);
    NotARouterLabel(Pasted(labels, lines), ServiceLine(setup).0, ServiceLine(setup).1);
  }

  lemma SevenFields(setup: Setup, app: Spec, priority: int)
    ensures CallbackFields(setup, app, priority) != []
  {
  }

  lemma ServiceIsNoRouter(setup: Setup)
    ensures NameField(ServiceLine(setup).0).None?
  {
    assert ServiceLine(setup).0[13] == 's' && ROUTERS[13] == 'r';
  }

  lemma PasteLast(labels: Labels, lines: seq<Line>, last: Line)
    ensures Pasted(labels, lines + [last]) == Pasted(labels, lines)[last.0 := last.1]
  {
    assert (lines + [last])[..|lines|] == lines;
  }

  // Repairing.

  /** What the second audit should find: nothing but names that no router bears. */
  predicate Repaired(b: Report) {
    b.satisfied && forall f | f in b.findings :: f.RouterUnknown?
  }

  /** The middleware's name is found again in a list of it alone. */
  predicate FindsItself(mw: string) {
    mw in Fields(mw)
  }

  /** Ten above the highest priority of the host is still a 64-bit number. */
  ghost predicate Fits(rs: Fleet, app: Spec) {
    forall n | n in OnHost(rs, app) :: Effective(rs[n]) + 10 <= MAX64
  }

  /** Routers differ at most in their middlewares. */
  ghost predicate SameRouting(rs: Fleet, after: Fleet) {
    after.Keys == rs.Keys && forall n | n in rs :: after[n] == rs[n].(middlewares := after[n].middlewares)
  }

  lemma SameRoutingSameSets(rs: Fleet, after: Fleet, app: Spec)
    requires SameRouting(rs, after)
    ensures OnHost(after, app) == OnHost(rs, app) && Callbacks(after, app) == Callbacks(rs, app)
    ensures Protected(after, app) == Protected(rs, app) && Public(after, app) == Public(rs, app)
    ensures forall n | n in rs :: Effective(after[n]) == Effective(rs[n])
  {
    assert OnHost(after, app) == OnHost(rs, app);
    assert Callbacks(after, app) == Callbacks(rs, app);
    hide HostLiterals, IsCallbackRule, OnHost, Callbacks;
  }

  lemma ProtectedAreRouters(rs: Fleet, app: Spec)
    ensures forall n | n in Protected(rs, app) :: n in rs
    ensures Callbacks(rs, app) <= OnHost(rs, app) && Public(rs, app) <= OnHost(rs, app)
    ensures forall n | n in OnHost(rs, app) :: n in rs
  {
  }

  // Verdicts.

  /** A report is clean exactly when every protected router is wired and the callback is not an issue. */
  lemma RepairedMeans(setup: Setup, app: Spec, rs: Fleet, fleet: bool, b: Report)
    requires IsReport(setup, app, rs, fleet, b) && !b.skipped
    ensures Repaired(b) <==>
              && (Public(rs, app) == {} || fleet || CallbackWins(rs, app, setup.middleware))
              && forall n | n in Protected(rs, app) :: n in rs && setup.middleware in rs[n].middlewares
  {
    ProtectedAreRouters(rs, app);
    hide Public, CallbackWins, Protected, OnHost, Callbacks, IsTop;
    if n :| n in Protected(rs, app) && setup.middleware !in rs[n].middlewares {
      assert UnwiredMiddleware(n) in b.findings;
    }
  }

  /** The callback carries the middleware once the middleware lines are pasted. */
  ghost predicate WillCarry(rs: Fleet, app: Spec, mw: string, c: string)
    requires c in rs
  {
    if c in Protected(rs, app) then FindsItself(mw) else mw in rs[c].middlewares
  }

  ghost predicate Outranks(rs: Fleet, c: string, open: set<string>)
    requires c in rs
  {
    Effective(rs[c]) > 0 && forall n | n in open && n in rs :: Effective(rs[c]) > Effective(rs[n])
  }

  /** A callback that is there already wins against the routers in `open` as soon as the middleware
      lines are pasted. */
  ghost predicate WiringWins(rs: Fleet, app: Spec, mw: string, open: set<string>) {
    exists c :: c in Callbacks(rs, app) && c in rs && c != CallbackName(app) && WillCarry(rs, app, mw, c) && Outranks(rs, c, open)
  }

  /** What pasting does to a container that gets no block, one that gets a block, and one whose block
      misses because the slug has a dot. All of it can be read off the labels beforehand. */
  ghost predicate Repairable(setup: Setup, app: Spec, rs: Fleet, a: Report) {
    var name := CallbackName(app);
    if !NeedsBlock(a) then FindsItself(setup.middleware) || Protected(rs, app) == {}
    else if '.' in app.slug then
      && (FindsItself(setup.middleware) || Protected(rs, app) == {})
      && (StubName(app) in app.routers ==> StubName(app) in rs)
      && WiringWins(rs, app, setup.middleware, Public(rs, app))
    else
      var open := Public(rs, app) - {name};
      && (FindsItself(setup.middleware) || (Protected(rs, app) == {} && name !in app.routers))
      && (open == {} || (FindsItself(setup.middleware) && Fits(rs, app)) || WiringWins(rs, app, setup.middleware, open))
  }

  /** The name a dotted callback name is cut to. */
  function StubName(app: Spec): string {
    match IndexOf(CallbackName(app), '.')
    case Some(dot) => CallbackName(app)[..dot]
    case None => CallbackName(app)
  }

  lemma WiredWins(rs: Fleet, app: Spec, mw: string, names: seq<string>, open: set<string>, c: string)
    requires forall n :: n in names <==> n in Protected(rs, app)
    requires c in Callbacks(rs, app) && open <= OnHost(rs, app)
    ensures var w := Wired(rs, names, mw);
            && c in rs && c in w && (mw in w[c].middlewares <==> WillCarry(rs, app, mw, c))
            && (Outranks(w, c, open) <==> Outranks(rs, c, open))
  {
    ProtectedAreRouters(rs, app);
    hide Protected, Callbacks, OnHost, Fields;
  }

  /** Wiring rewrites every protected router and no other. */
  lemma WiredMeans(rs: Fleet, app: Spec, mw: string, names: seq<string>)
    requires forall n :: n in names <==> n in Protected(rs, app)
    ensures SameRouting(rs, Wired(rs, names, mw))
    ensures forall n | n in Protected(rs, app) :: n in rs && (mw in Wired(rs, names, mw)[n].middlewares <==> FindsItself(mw))
    ensures Protected(rs, app) == {} ==> Wired(rs, names, mw) == rs
  {
    ProtectedAreRouters(rs, app);
    hide Protected, Fields;
  }

  lemma WinsByOne(rs: Fleet, app: Spec, mw: string)
    ensures CallbackWins(rs, app, mw) <==>
              exists c :: c in Callbacks(rs, app) && c in rs && mw in rs[c].middlewares && Outranks(rs, c, Public(rs, app))
  {
    ProtectedAreRouters(rs, app);
    hide Callbacks, Public, OnHost, Effective;
  }

  lemma OutcomeWithoutBlock(setup: Setup, app: Spec, rs: Fleet, fleet: bool, a: Report, b: Report)
    requires IsReport(setup, app, rs, fleet, a) && !a.skipped && !NeedsBlock(a)
    requires IsReport(setup, app, Wired(rs, a.protected, setup.middleware), fleet, b)
    ensures Repaired(b) <==> Repairable(setup, app, rs, a)
  {
    hide Wired, OnHost, Callbacks, Protected, Public, CallbackWins, WillCarry, Outranks, IsTop, SameRouting, FindsItself, Repaired, IsFinding;
    var mw := setup.middleware;
    var w := Wired(rs, a.protected, mw);
    WiredMeans(rs, app, mw, a.protected);
    SameRoutingSameSets(rs, w, app);
    SameRoutingSameNames(rs, w);
    ProtectedAreRouters(rs, app);
    RepairedMeans(setup, app, w, fleet, b);
    WinsByOne(rs, app, mw);
    WinsByOne(w, app, mw);
    if Protected(rs, app) != {} {
      var n :| n in Protected(rs, app);
      assert mw in w[n].middlewares <==> FindsItself(mw);
    }
    if FindsItself(mw) && CallbackWins(rs, app, mw) {
      var c :| c in Callbacks(rs, app) && c in rs && mw in rs[c].middlewares && Outranks(rs, c, Public(rs, app));
      WiredWins(rs, app, mw, a.protected, Public(rs, app), c);
      assert WillCarry(rs, app, mw, c) by { CarriesStill(rs, app, mw, c); }
      assert c in Callbacks(w, app) && mw in w[c].middlewares && Outranks(w, c, Public(w, app));
    }
  }

  lemma CarriesStill(rs: Fleet, app: Spec, mw: string, c: string)
    requires c in rs && mw in rs[c].middlewares && FindsItself(mw)
    ensures WillCarry(rs, app, mw, c)
  {
  }

  /** With the new callback in place, it takes part and is not public itself. */
  lemma BlockSets(w: Fleet, app: Spec, name: string, r: Router)
    requires app.host in r.hosts && IsCallbackRule(r.rule) && app.routers != []
    ensures var after := w[name := r];
            && Callbacks(after, app) == Callbacks(w, app) + {name}
            && Public(after, app) == Public(w, app) - {name}
            && Protected(after, app) == Protected(w, app) + if name in app.routers then {name} else {}
  {
    var after := w[name := r];
    assert OnHost(after, app) == OnHost(w, app) + {name};
    assert Callbacks(after, app) == Callbacks(w, app) + {name};
    assert Protected(after, app) == Protected(w, app) + if name in app.routers then {name} else {};
    hide IsCallbackRule, OnHost, Callbacks, Protected;
  }

  lemma NewCallbackIsRight(setup: Setup, app: Spec, priority: int)
    requires app.host != "" && '`' !in app.host && MIN64 <= priority <= MAX64
    ensures var r := NewCallback(setup, app, priority);
            && app.host in r.hosts && IsCallbackRule(r.rule) && r.priority == priority && r.middlewares == Fields(setup.middleware)
  {
    hide HostLiterals, Itoa, Trim, Atoi, IsCallbackRule, CallbackRule, Fields;
    CallbackRuleNames(app.host);
    PrintedIsRead(priority);
    CallbackRuleIsCallback(app.host);
  }

  lemma CallbackRuleNames(host: string)
    requires host != "" && '`' !in host
    ensures host in HostLiterals(CallbackRule(host))
  {
    hide HostLiterals;
    PrintedHostIsRead(host, " && PathPrefix(`" + CALLBACK_PATH + "`)");
    assert CallbackRule(host) == HostMatch(host) + (" && PathPrefix(`" + CALLBACK_PATH + "`)");
  }

  lemma CallbackRuleIsCallback(host: string)
    ensures IsCallbackRule(CallbackRule(host))
  {
    var rule := CallbackRule(host);
    assert rule == (HostMatch(host) + " && ") + "PathPrefix(" + ("`" + CALLBACK_PATH + "`)");
    ContainsMiddle(HostMatch(host) + " && ", "PathPrefix(", "`" + CALLBACK_PATH + "`)");
    assert rule == (HostMatch(host) + " && PathPrefix(`") + CALLBACK_PATH + "`)";
    ContainsMiddle(HostMatch(host) + " && PathPrefix(`", CALLBACK_PATH, "`)");
  }

  /** A mixed host is the host of some router, so it can be quoted in a rule. */
  lemma MixedHostIsQuotable(labels: Labels, app: Spec)
    requires Public(RoutersOf(labels), app) != {}
    ensures app.host != "" && '`' !in app.host
  {
    var n :| n in Public(RoutersOf(labels), app);
    LiteralsAreQuotable(RoutersOf(labels)[n].rule);
  }

  /** The number printed for the new callback is the one it gets: above every router of the host. */
  lemma PriorityIsAbove(setup: Setup, app: Spec, rs: Fleet, fleet: bool, a: Report)
    requires IsReport(setup, app, rs, fleet, a) && !a.skipped && Fits(rs, app)
    ensures MIN64 <= a.priority <= MAX64 && a.priority >= 10
    ensures forall n | n in OnHost(rs, app) :: Effective(rs[n]) + 10 <= a.priority
  {
    hide OnHost, Public, Protected, CallbackWins, IsFinding, Effective;
    var top :| IsTop(rs, OnHost(rs, app), top) && a.priority == Wrap64(top + 10);
    ProtectedAreRouters(rs, app);
    assert top + 10 <= MAX64;
  }

  lemma FindsItselfMeans(mw: string, r: Router)
    requires r.middlewares == Fields(mw)
    ensures mw in r.middlewares <==> FindsItself(mw)
  {
  }

  /** The new callback beats what is open exactly when its priority was printed without a wrap. */
  lemma NewCallbackOutranks(setup: Setup, app: Spec, rs: Fleet, a: Report, r: Router, open: set<string>, w: Fleet)
    requires IsReport(setup, app, rs, false, a) && !a.skipped && SameRouting(rs, w)
    requires r.priority == a.priority && open <= OnHost(rs, app) && CallbackName(app) !in open
    requires Fits(rs, app) || forall n | n in rs :: Effective(rs[n]) <= MAX64
    ensures Outranks(w[CallbackName(app) := r], CallbackName(app), open) <==> Fits(rs, app)
  {
    hide OnHost, Public, Protected, Callbacks, CallbackWins, IsFinding, IsTop, CallbackName;
    ProtectedAreRouters(rs, app);
    if Fits(rs, app) {
      PriorityIsAbove(setup, app, rs, false, a);
    } else {
      PriorityWraps(setup, app, rs, false, a);
    }
    hide IsReport;
  }

  lemma OutcomeWithBlock(setup: Setup, app: Spec, rs: Fleet, a: Report, b: Report)
    requires IsReport(setup, app, rs, false, a) && !a.skipped && NeedsBlock(a) && '.' !in app.slug
    requires app.host != "" && '`' !in app.host && app.routers != []
    requires Fits(rs, app) || forall n | n in rs :: Effective(rs[n]) <= MAX64
    requires IsReport(setup, app, Wired(rs, a.protected, setup.middleware)[CallbackName(app) := NewCallback(setup, app, a.priority)], false, b)
    ensures Repaired(b) <==> Repairable(setup, app, rs, a)
  {
    hide HostLiterals, FindsItself;
    var mw, name := setup.middleware, CallbackName(app);
    var w, r := Wired(rs, a.protected, mw), NewCallback(setup, app, a.priority);
    var after, open := w[name := r], Public(rs, app) - {name};
    assert MIN64 <= a.priority <= MAX64;
    hide Wired, OnHost, Callbacks, Protected, Public, CallbackWins, WillCarry, Outranks, IsTop, Repaired, IsFinding, Fits,
         IsCallbackRule, Fields, NewCallback, Effective, CallbackName, SameRouting, Wrap64;
    NewCallbackIsRight(setup, app, a.priority);
    WiredMeans(rs, app, mw, a.protected);
    SameRoutingSameSets(rs, w, app);
    ProtectedAreRouters(rs, app);
    BlockSets(w, app, name, r);
    NewCallbackOutranks(setup, app, rs, a, r, open, w);
    RepairedMeans(setup, app, after, false, b);
    WinsByOne(after, app, mw);
    BlockWins(rs, app, mw, a.protected, name, r, open);
    hide IsReport;
    FindsItselfMeans(mw, r);
  }

  /** Some callback wins afterwards exactly when the new one does or an old one was only short of the
      middleware. */
  lemma BlockWins(rs: Fleet, app: Spec, mw: string, names: seq<string>, name: string, r: Router, open: set<string>)
    requires name == CallbackName(app) && name !in open && open <= OnHost(rs, app)
    requires forall n :: n in names <==> n in Protected(rs, app)
    ensures var w := Wired(rs, names, mw);
            var after := w[name := r];
            (exists c :: c in Callbacks(rs, app) + {name} && c in after && mw in after[c].middlewares && Outranks(after, c, open)) <==>
              (mw in r.middlewares && Outranks(after, name, open)) || WiringWins(rs, app, mw, open)
  {
    var w := Wired(rs, names, mw);
    var after := w[name := r];
    hide Callbacks, OnHost, Protected, WillCarry, CallbackName, Wired;
    forall c | c in Callbacks(rs, app) && c != name
      ensures c in rs && c in after && after[c] == w[c] && (mw in w[c].middlewares <==> WillCarry(rs, app, mw, c))
      ensures Outranks(after, c, open) <==> Outranks(rs, c, open)
    {
      WiredWins(rs, app, mw, names, open, c);
      OutranksAlike(w, after, name, r, c, open);
    }
    hide Outranks;
    if c :| c in Callbacks(rs, app) && c in rs && c != name && WillCarry(rs, app, mw, c) && Outranks(rs, c, open) {
      assert c in after && mw in after[c].middlewares && Outranks(after, c, open);
    }
    assert name in after;
  }

  lemma OutranksAlike(w: Fleet, after: Fleet, name: string, r: Router, c: string, open: set<string>)
    requires after == w[name := r] && c in w && c != name && name !in open
    ensures Outranks(after, c, open) <==> Outranks(w, c, open)
  {
    hide Effective;
  }

  lemma OutcomeWithStub(setup: Setup, app: Spec, rs: Fleet, a: Report, b: Report)
    requires IsReport(setup, app, rs, false, a) && !a.skipped && NeedsBlock(a) && '.' in app.slug
    requires app.routers != [] && CallbackName(app) !in rs
    requires IsReport(setup, app, Stub(Wired(rs, a.protected, setup.middleware), StubName(app)), false, b)
    ensures Repaired(b) <==> Repairable(setup, app, rs, a)
  {
    var mw, n := setup.middleware, StubName(app);
    var w := Wired(rs, a.protected, mw);
    var after := Stub(w, n);
    hide OnHost, Callbacks, Protected, Public, CallbackWins, WillCarry, Outranks, IsTop, Repaired, IsFinding, Fits,
         IsCallbackRule, Fields, Effective, CallbackName, StubName, SameRouting, Wrap64, Stub, Wired;
    WiredMeans(rs, app, mw, a.protected);
    SameRoutingSameSets(rs, w, app);
    ProtectedAreRouters(rs, app);
    StubSets(w, app, n);
    RepairedMeans(setup, app, after, false, b);
    WinsByOne(after, app, mw);
    StubWins(rs, app, mw, a.protected, n, Public(rs, app));
    SameRoutingSameNames(rs, w);
    NamedAreProtected(rs, app);
    hide FindsItself, IsReport;
  }

  lemma NamedAreProtected(rs: Fleet, app: Spec)
    requires app.routers != []
    ensures forall n | n in app.routers && n in rs :: n in Protected(rs, app)
  {
  }

  lemma StubWins(rs: Fleet, app: Spec, mw: string, names: seq<string>, n: string, open: set<string>)
    requires open <= OnHost(rs, app) && CallbackName(app) !in rs
    requires forall m :: m in names <==> m in Protected(rs, app)
    ensures var after := Stub(Wired(rs, names, mw), n);
            (exists c :: c in Callbacks(rs, app) && c in after && mw in after[c].middlewares && Outranks(after, c, open)) <==>
              WiringWins(rs, app, mw, open)
  {
    var w := Wired(rs, names, mw);
    var after := Stub(w, n);
    ProtectedAreRouters(rs, app);
    WiredMeans(rs, app, mw, names);
    hide Callbacks, OnHost, Protected, WillCarry, CallbackName, Wired;
    forall c | c in Callbacks(rs, app)
      ensures c in rs && c in after && (mw in after[c].middlewares <==> WillCarry(rs, app, mw, c))
      ensures Outranks(after, c, open) <==> Outranks(rs, c, open)
    {
      WiredWins(rs, app, mw, names, open, c);
      assert forall m | m in rs :: m in after && after[m] == w[m];
      assert forall m | m in open :: m in rs;
    }
    hide Outranks;
    if c :| c in Callbacks(rs, app) && c in rs && c != CallbackName(app) && WillCarry(rs, app, mw, c) && Outranks(rs, c, open) {
      assert c in after && mw in after[c].middlewares && Outranks(after, c, open);
    }
  }

  lemma SameRoutingSameNames(rs: Fleet, w: Fleet)
    requires SameRouting(rs, w)
    ensures w.Keys == rs.Keys
  {
  }

  lemma RoutersAfterPaste(setup: Setup, app: Spec, labels: Labels, fleet: bool, a: Report)
    requires IsReport(setup, app, RoutersOf(labels), fleet, a) && !a.skipped
    requires NeedsBlock(a) ==> '.' !in CallbackName(app)
    ensures var w := Wired(RoutersOf(labels), a.protected, setup.middleware);
            RoutersOf(Pasted(labels, Rendered(setup, app, a))) ==
              if NeedsBlock(a) then w[CallbackName(app) := NewCallback(setup, app, a.priority)] else w
  {
    ProtectedAreRouters(RoutersOf(labels), app);
    hide RoutersOf, CallbackBlock, NewCallback, MiddlewareLines, CallbackName, Protected, Wired, Public;
    var lines := MiddlewareLines(setup.middleware, a.protected);
    MiddlewaresPasted(labels, a.protected, setup.middleware);
    if NeedsBlock(a) {
      BlockPasted(Pasted(labels, lines), setup, app, a.priority);
      PastedTwice(labels, lines, CallbackBlock(setup, app, a.priority));
    } else {
      assert lines + [] == lines;
    }
  }

  lemma DotInName(app: Spec)
    ensures '.' in CallbackName(app) <==> '.' in app.slug
  {
  }

  // A dotted slug.

  /** A dotted name is cut at its first dot: its fields reach another router, which ignores them. */
  lemma DottedKey(name: string, n: string, rest: string, field: string, r: Router, v: string)
    requires name == n + "." + rest
    ensures LabelKey(name, field) == LabelKey(n, rest + "." + field) && Put(r, rest + "." + field, v) == r
  {
    assert (rest + "." + field)[|rest|] == '.';
    assert '.' !in "rule" && '.' !in "middlewares" && '.' !in "priority" && '.' !in "service";
    assert '.' in rest + "." + field;
  }

  function Stub(rs: Fleet, n: string): Fleet {
    rs[n := if n in rs then rs[n] else BLANK]
  }

  lemma {:induction false} DottedPasted(labels: Labels, name: string, n: string, rest: string, fields: seq<(string, string)>)
    requires name == n + "." + rest && '.' !in n && fields != []
    ensures RoutersOf(Pasted(labels, FieldLines(name, fields))) == Stub(RoutersOf(labels), n)
  {
    hide RoutersOf, Put, LabelKey;
    var before, last := fields[..|fields| - 1], fields[|fields| - 1];
    var lines := FieldLines(name, fields);
    assert lines[..|lines| - 1] == FieldLines(name, before);
    var was := RoutersOf(Pasted(labels, FieldLines(name, before)));
    DottedKey(name, n, rest, last.0, if n in was then was[n] else BLANK, last.1);
    PasteOne(Pasted(labels, FieldLines(name, before)), n, rest + "." + last.0, last.1);
    if before != [] {
      DottedPasted(labels, name, n, rest, before);
    }
  }

  lemma FirstDot(name: string) returns (n: string, rest: string)
    requires '.' in name
    ensures name == n + "." + rest && '.' !in n && IndexOf(name, '.') == Some(|n|) && name[..|n|] == n
  {
    var dot := IndexOf(name, '.').value;
    n, rest := name[..dot], name[dot + 1..];
  }

  /** With a dotted slug the block makes no callback at all. */
  lemma DottedBlock(setup: Setup, app: Spec, labels: Labels, priority: int)
    requires '.' in CallbackName(app)
    ensures RoutersOf(Pasted(labels, CallbackBlock(setup, app, priority))) == Stub(RoutersOf(labels), StubName(app))
  {
    hide RoutersOf, CallbackFields, FieldLines, Pasted, NameField;
    var fields := CallbackFields(setup, app, priority);
    var lines := FieldLines(CallbackName(app), fields);
    var n, rest := FirstDot(CallbackName(app));
    SevenFields(setup, app, priority);
    DottedPasted(labels, CallbackName(app), n, rest, fields);
    PasteLast(labels, lines, ServiceLine(setup));
    ServiceIsNoRouter(setup);
    NotARouterLabel(Pasted(labels, lines), ServiceLine(setup).0, ServiceLine(setup).1);
  }

  lemma StubSets(w: Fleet, app: Spec, n: string)
    requires app.routers != []
    ensures Callbacks(Stub(w, n), app) == Callbacks(w, app) && Public(Stub(w, n), app) == Public(w, app)
    ensures Protected(Stub(w, n), app) == Protected(w, app) + if n in app.routers then {n} else {}
    ensures n in Stub(w, n) && (n !in w ==> Stub(w, n)[n].middlewares == [])
    ensures forall m | m in w :: m in Stub(w, n) && Stub(w, n)[m] == w[m]
  {
    assert OnHost(Stub(w, n), app) == OnHost(w, app);
  }

  /** Without named routers nothing is public, so no block is rendered. */
  lemma BlockMeansNamed(setup: Setup, app: Spec, rs: Fleet, fleet: bool, a: Report)
    requires IsReport(setup, app, rs, fleet, a) && !a.skipped && NeedsBlock(a)
    ensures app.routers != [] && Public(rs, app) != {} && !fleet
  {
  }

  /** Every rule's length is a number the machine can hold. */
  ghost predicate Measurable(rs: Fleet) {
    forall n | n in rs :: Bytes(rs[n].rule) <= MAX64
  }

  lemma {:induction false} PrioritiesAreRead(labels: Labels)
    requires Measurable(RoutersOf(labels))
    ensures forall n | n in RoutersOf(labels) :: Effective(RoutersOf(labels)[n]) <= MAX64
  {
    hide Fields, HostLiterals, Atoi, Trim;
    forall n | n in RoutersOf(labels) ensures Effective(RoutersOf(labels)[n]) <= MAX64 {
      PriorityFits(Get(labels, LabelKey(n, "priority")));
    }
  }

  lemma PriorityFits(text: string)
    ensures PriorityOf(text) <= MAX64
  {
  }

  /** Ten above the top does not fit: what is printed wraps around to a negative number. */
  lemma PriorityWraps(setup: Setup, app: Spec, rs: Fleet, fleet: bool, a: Report)
    requires IsReport(setup, app, rs, fleet, a) && !a.skipped && !Fits(rs, app)
    requires forall n | n in rs :: Effective(rs[n]) <= MAX64
    ensures MIN64 <= a.priority < -1
  {
    hide OnHost, Public, Protected, CallbackWins, IsFinding, Effective;
    var top :| IsTop(rs, OnHost(rs, app), top) && a.priority == Wrap64(top + 10);
    ProtectedAreRouters(rs, app);
    assert MAX64 < top + 10 <= MAX64 + 10;
  }

  /** For any container, rendered labels repair what the audit found if and only if the container is
      repairable. */
  lemma RepairsExactlyWhen(setup: Setup, app: Spec, labels: Labels, fleet: bool, a: Report, b: Report)
    requires IsReport(setup, app, RoutersOf(labels), fleet, a) && !a.skipped
    requires NeedsBlock(a) && '.' !in app.slug ==> Measurable(RoutersOf(labels)) || Fits(RoutersOf(labels), app)
    requires IsReport(setup, app, RoutersOf(Pasted(labels, Rendered(setup, app, a))), fleet, b)
    ensures Repaired(b) <==> Repairable(setup, app, RoutersOf(labels), a)
  {
    hide RoutersOf, Rendered, Wired, NewCallback, CallbackName, Fits, FindsItself, Pasted, Repairable, Repaired, Measurable, Effective, Stub, StubName;
    var rs := RoutersOf(labels);
    DotInName(app);
    if !NeedsBlock(a) {
      RoutersAfterPaste(setup, app, labels, fleet, a);
      OutcomeWithoutBlock(setup, app, rs, fleet, a, b);
    } else {
      BlockMeansNamed(setup, app, rs, fleet, a);
      MixedHostIsQuotable(labels, app);
      if '.' in app.slug {
        RoutersAfterDottedPaste(setup, app, labels, a);
        OutcomeWithStub(setup, app, rs, a, b);
      } else {
        if Measurable(rs) {
          PrioritiesAreRead(labels);
        }
        RoutersAfterPaste(setup, app, labels, fleet, a);
        OutcomeWithBlock(setup, app, rs, a, b);
      }
    }
  }

  lemma RoutersAfterDottedPaste(setup: Setup, app: Spec, labels: Labels, a: Report)
    requires IsReport(setup, app, RoutersOf(labels), false, a) && !a.skipped && NeedsBlock(a) && '.' in CallbackName(app)
    ensures RoutersOf(Pasted(labels, Rendered(setup, app, a))) ==
              Stub(Wired(RoutersOf(labels), a.protected, setup.middleware), StubName(app))
    ensures CallbackName(app) !in RoutersOf(labels)
  {
    ProtectedAreRouters(RoutersOf(labels), app);
    if CallbackName(app) in RoutersOf(labels) {
      RouterNames(labels, CallbackName(app));
    }
    hide RoutersOf, CallbackBlock, MiddlewareLines, CallbackName, Protected, Wired, Public, Stub, StubName;
    var lines := MiddlewareLines(setup.middleware, a.protected);
    MiddlewaresPasted(labels, a.protected, setup.middleware);
    PastedTwice(labels, lines, CallbackBlock(setup, app, a.priority));
    DottedBlock(setup, app, Pasted(labels, lines), a.priority);
  }

  /** Enough for any container: a middleware name that is one list field, and, when a block is
      rendered, a slug without a dot and a priority that does not wrap. */
  lemma RenderRepairs(setup: Setup, app: Spec, labels: Labels, fleet: bool, a: Report, b: Report)
    requires IsReport(setup, app, RoutersOf(labels), fleet, a) && !a.skipped
    requires IsReport(setup, app, RoutersOf(Pasted(labels, Rendered(setup, app, a))), fleet, b)
    requires FindsItself(setup.middleware)
    requires NeedsBlock(a) ==> '.' !in app.slug && Fits(RoutersOf(labels), app)
    ensures Repaired(b)
  {
    hide RoutersOf, Rendered, Pasted, IsReport, Repaired, FindsItself, Fits, WiringWins;
    RepairsExactlyWhen(setup, app, labels, fleet, a, b);
  }

  /** Where the new router's name is free and cutting it names no router: the middleware's name must
      be one list field, and either the new callback works or one that is there only lacked the
      middleware. */
  lemma FreshNameCondition(setup: Setup, app: Spec, rs: Fleet, a: Report)
    requires IsReport(setup, app, rs, false, a) && !a.skipped && NeedsBlock(a)
    requires CallbackName(app) !in rs && ('.' in app.slug ==> StubName(app) in app.routers ==> StubName(app) in rs)
    ensures Repairable(setup, app, rs, a) <==>
              FindsItself(setup.middleware) && (('.' !in app.slug && Fits(rs, app)) || WiringWins(rs, app, setup.middleware, Public(rs, app)))
  {
    var mw, open := setup.middleware, Public(rs, app);
    ProtectedAreRouters(rs, app);
    assert CallbackName(app) !in open;
    assert open - {CallbackName(app)} == open;
    BlockMeansNamed(setup, app, rs, false, a);
    WinsByOne(rs, app, mw);
    hide OnHost, Callbacks, Public, CallbackWins, Outranks, IsTop, IsFinding, FindsItself, CallbackName, StubName, Fits;
    if WiringWins(rs, app, mw, open) {
      var c :| c in Callbacks(rs, app) && c in rs && c != CallbackName(app) && WillCarry(rs, app, mw, c) && Outranks(rs, c, open);
      assert c in Protected(rs, app);
    }
  }

  /** The operator's round: audit, render, paste, audit again. */
  method AuditPasteAudit(setup: Setup, app: Spec, labels: Labels, fleet: bool) returns (a: Report, b: Report)
    ensures IsReport(setup, app, RoutersOf(labels), fleet, a)
    ensures !a.skipped && Measurable(RoutersOf(labels)) ==> (Repaired(b) <==> Repairable(setup, app, RoutersOf(labels), a))
  {
    hide RoutersOf, Rendered, Pasted, Measurable, IsReport, Repaired, Repairable;
    a := Verify(setup, app, labels, fleet);
    var lines := RenderService(setup, app, a);
    b := Verify(setup, app, Pasted(labels, lines), fleet);
    if !a.skipped && Measurable(RoutersOf(labels)) {
      RepairsExactlyWhen(setup, app, labels, fleet, a, b);
    }
  }
}
