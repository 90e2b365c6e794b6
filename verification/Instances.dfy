/** Concrete containers on which the audit or its repair does not do what one would expect. */
module Instances {
  import opened Desired
  import opened Text
  import opened Routers
  import opened Audit
  import opened Repair

  // A priority that wraps.

  const SAMPLE := NOTHING.(slug := "app", host := "h", routers := ["app"])

  /** A public router of priority `p` beside a protected one. */
  function TwoRouters(p: int): Labels {
    map[][LabelKey("app", "rule") := HostMatch("h")][LabelKey("pub", "rule") := HostMatch("h")][LabelKey("pub", "priority") := Itoa(p)]
  }

  const APP_ROUTER := Router(HostMatch("h"), ["h"], [], UNSET, "")

  lemma AppRouterIsRead(p: int)
    requires MIN64 <= p <= MAX64
    ensures Put(BLANK, "rule", HostMatch("h")) == APP_ROUTER
    ensures Put(APP_ROUTER, "priority", Itoa(p)) == APP_ROUTER.(priority := p)
  {
    PrintedHostIsRead("h", "");
    NoHosts();
    assert HostMatch("h") + "" == HostMatch("h");
    PrintedIsRead(p);
    hide HostMatch, HostLiterals, Itoa, Atoi, Trim;
  }

  lemma TwoRoutersRead(p: int)
    requires MIN64 <= p <= MAX64
    ensures RoutersOf(TwoRouters(p)) == map["app" := APP_ROUTER, "pub" := APP_ROUTER.(priority := p)]
  {
    hide RoutersOf, HostLiterals, Fields, Itoa, LabelKey, HostMatch, Put;
    var rule := HostMatch("h");
    var l1: Labels := map[][LabelKey("app", "rule") := rule];
    var l2 := l1[LabelKey("pub", "rule") := rule];
    NoLabels();
    AppRouterIsRead(p);
    PasteOne(map[], "app", "rule", rule);
    assert RoutersOf(l1) == map["app" := APP_ROUTER];
    PasteOne(l1, "pub", "rule", rule);
    assert RoutersOf(l2) == map["app" := APP_ROUTER, "pub" := APP_ROUTER];
    PasteOne(l2, "pub", "priority", Itoa(p));
  }

  lemma HostRuleIsPlain()
    ensures !IsCallbackRule(HostMatch("h")) && Bytes(HostMatch("h")) <= 9
  {
    assert HostMatch("h") == "Host(`h`)";
    AsciiBytes("Host(`h`)");
  }

  lemma NoLabels()
    ensures RoutersOf(map[]) == map[]
  {
  }

  lemma NoHosts()
    ensures HostLiterals("") == []
  {
  }

  lemma {:induction false} AsciiBytes(s: string)
    requires forall c | c in s :: c as int < 0x80
    ensures Bytes(s) == |s|
  {
    if s != "" {
      var before := s[..|s| - 1];
      assert forall c | c in before :: c in s;
      AsciiBytes(before);
      assert s[|s| - 1] in s;
    }
  }

  lemma HugeSets(app: Spec, rs: Fleet)
    requires app == SAMPLE && rs == map["app" := APP_ROUTER, "pub" := APP_ROUTER.(priority := MAX64)]
    ensures Callbacks(rs, app) == {} && Public(rs, app) == {"pub"} && !Fits(rs, app) && Measurable(rs) && CallbackName(app) !in rs
    ensures '.' !in app.slug
  {
    HostRuleIsPlain();
    hide IsCallbackRule, HostMatch, Bytes;
    assert OnHost(rs, app) == {"app", "pub"};
    assert Callbacks(rs, app) == {};
    assert Protected(rs, app) == {"app"};
    assert Effective(rs["pub"]) == MAX64;
    assert |CallbackName(app)| == 11;
  }

  /** Audit, render, paste and audit again: the finding is still there. */
  method HugePriorityIsNotRepaired(fleet: bool) returns (a: Report, b: Report)
    ensures !fleet ==> NeedsBlock(a) && !Repaired(b)
  {
    var setup := Setup(true, "sso", "http://authentik-server:9000");
    var app := SAMPLE;
    a := Verify(setup, app, TwoRouters(MAX64), fleet);
    var lines := RenderService(setup, app, a);
    b := Verify(setup, app, Pasted(TwoRouters(MAX64), lines), fleet);
    hide RoutersOf, Rendered, Pasted, TwoRouters, IsReport, Repaired, Repairable, Measurable;
    if !fleet {
      HugeNeedsBlock(setup, a);
      RepairsExactlyWhen(setup, app, TwoRouters(MAX64), fleet, a, b);
    }
  }

  lemma HugeNeedsBlock(setup: Setup, a: Report)
    requires IsReport(setup, SAMPLE, RoutersOf(TwoRouters(MAX64)), false, a) && !a.skipped
    ensures NeedsBlock(a) && Measurable(RoutersOf(TwoRouters(MAX64))) && !Repairable(setup, SAMPLE, RoutersOf(TwoRouters(MAX64)), a)
  {
    hide RoutersOf, TwoRouters, HostMatch, Callbacks, Public, Protected, Fits, Measurable, CallbackName, WillCarry, Outranks, IsFinding, IsTop,
         CallbackWins, FindsItself, HostLiterals;
    TwoRoutersRead(MAX64);
    HugeSets(SAMPLE, RoutersOf(TwoRouters(MAX64)));
    NoCallbackNoWin(RoutersOf(TwoRouters(MAX64)), SAMPLE, setup.middleware);
  }

  // Priorities below zero.

  /** A callback that carries the middleware and outranks every public router. */
  ghost predicate OnTop(rs: Fleet, app: Spec, mw: string, c: string) {
    c in Callbacks(rs, app) && c in rs && mw in rs[c].middlewares && forall n | n in Public(rs, app) && n in rs :: Effective(rs[c]) > Effective(rs[n])
  }

  /** A mixed host with a callback on top is reported all the same exactly when no such callback has a
      priority above zero. */
  lemma OnTopIsNotEnough(setup: Setup, app: Spec, rs: Fleet, a: Report)
    requires IsReport(setup, app, rs, false, a) && !a.skipped && Public(rs, app) != {}
    requires exists c :: OnTop(rs, app, setup.middleware, c)
    ensures CallbackPriority in a.findings <==> forall c | OnTop(rs, app, setup.middleware, c) :: Effective(rs[c]) <= 0
  {
    ProtectedAreRouters(rs, app);
    WinsByOne(rs, app, setup.middleware);
    hide OnHost, Callbacks, Public, Effective, CallbackWins, IsTop, Protected;
    var some :| OnTop(rs, app, setup.middleware, some);
    if c :| c in Callbacks(rs, app) && c in rs && setup.middleware in rs[c].middlewares && Outranks(rs, c, Public(rs, app)) {
      assert OnTop(rs, app, setup.middleware, c) && Effective(rs[c]) > 0;
    }
    if c :| OnTop(rs, app, setup.middleware, c) && Effective(rs[c]) > 0 {
      assert Outranks(rs, c, Public(rs, app));
    }
  }

  const SAMPLE_SETUP := Setup(true, "sso", "http://authentik-server:9000")

  /** The public router has priority -5, the callback -3. */
  function BelowZero(): Labels {
    Pasted(TwoRouters(-5), CallbackBlock(SAMPLE_SETUP, SAMPLE, -3))
  }

  lemma BelowZeroSets(rs: Fleet, cb: Router)
    requires rs == map["app" := APP_ROUTER, "pub" := APP_ROUTER.(priority := -5), "app-outpost" := cb]
    requires "h" in cb.hosts && IsCallbackRule(cb.rule) && !IsCallbackRule(HostMatch("h"))
    ensures Public(rs, SAMPLE) == {"pub"} && Callbacks(rs, SAMPLE) == {"app-outpost"}
  {
    hide IsCallbackRule, HostMatch;
    assert OnHost(rs, SAMPLE) == {"app", "pub", "app-outpost"};
    assert Callbacks(rs, SAMPLE) == {"app-outpost"};
    assert Protected(rs, SAMPLE) == {"app"};
  }

  lemma BelowZeroRead(rs: Fleet)
    requires rs == map["app" := APP_ROUTER, "pub" := APP_ROUTER.(priority := -5), "app-outpost" := NewCallback(SAMPLE_SETUP, SAMPLE, -3)]
    ensures Public(rs, SAMPLE) == {"pub"} && Callbacks(rs, SAMPLE) == {"app-outpost"}
    ensures OnTop(rs, SAMPLE, SAMPLE_SETUP.middleware, "app-outpost") && Effective(rs["app-outpost"]) == -3
  {
    hide IsCallbackRule, HostMatch, Bytes, NewCallback, Fields, Public, Callbacks;
    HostRuleIsPlain();
    NewCallbackIsRight(SAMPLE_SETUP, SAMPLE, -3);
    SampleIsCanonical();
    BelowZeroSets(rs, NewCallback(SAMPLE_SETUP, SAMPLE, -3));
  }

  lemma SampleIsCanonical()
    ensures "sso" in Fields("sso")
  {
    assert !IsSpace('s') && !IsSpace('o');
    hide IsSpace;
    FoundInOwnList("sso");
    assert TrimLeft("sso") == "sso" && TrimRight("sso") == "sso";
  }

  /** A container whose callback outranks its public router and is reported for its priority. */
  method BelowZeroIsReported() returns (a: Report)
    ensures CallbackPriority in a.findings
    ensures OnTop(RoutersOf(BelowZero()), SAMPLE, SAMPLE_SETUP.middleware, "app-outpost")
  {
    hide JudgedByRule, CallbackJudged, RoutersOf;
    a := Verify(SAMPLE_SETUP, SAMPLE, BelowZero(), false);
    TwoRoutersRead(-5);
    assert CallbackName(SAMPLE) == "app-outpost";
    BlockPasted(TwoRouters(-5), SAMPLE_SETUP, SAMPLE, -3);
    hide Pasted, TwoRouters, CallbackBlock, NewCallback, Callbacks, Public, OnTop, IsFinding, CallbackWins, IsTop, OnHost, Protected;
    BelowZeroRead(RoutersOf(BelowZero()));
    OnTopIsNotEnough(SAMPLE_SETUP, SAMPLE, RoutersOf(BelowZero()), a);
    BelowZeroAlone(RoutersOf(BelowZero()));
  }

  lemma BelowZeroAlone(rs: Fleet)
    requires Callbacks(rs, SAMPLE) == {"app-outpost"} && "app-outpost" in rs && Effective(rs["app-outpost"]) == -3
    ensures forall c | OnTop(rs, SAMPLE, SAMPLE_SETUP.middleware, c) :: Effective(rs[c]) <= 0
  {
    hide Callbacks, Effective;
  }

  /** Every priority is taken as it is written, but for -1, which reads as no priority at all. */
  lemma MinusOneIsNoPriority(labels: Labels, n: string, p: int)
    requires '.' !in n && MIN64 <= p <= MAX64
    ensures Effective(RouterOf(labels[LabelKey(n, "priority") := Itoa(p)], n)) == p <==> p != -1
    ensures p == -1 ==> Effective(RouterOf(labels[LabelKey(n, "priority") := Itoa(p)], n)) == Bytes(Get(labels, LabelKey(n, "rule")))
  {
    RouterWithPaste(labels, n, "priority", Itoa(p), n);
    PrintedIsRead(p);
    hide Itoa, Atoi, Trim, HostLiterals, Fields, LabelKey;
  }
}
