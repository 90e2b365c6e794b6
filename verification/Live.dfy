/** Confirming what is live: a read-only second opinion on what reconcile reports. */
module Live {
  import opened Options
  import opened Authentik
  import opened Desired
  import opened Lookups
  import opened Law
  import opened Cleanup

  datatype LiveState = LiveUnknown | LiveConfirmed | LiveDrift

  datatype Check = Check(slug: string, host: string, kind: ProviderType)

  ghost predicate HasNamed(t: Tables, component: Component, slug: string) {
    exists p :: p in t.providers && t.providers[p].component == component && t.providers[p].name == Marker(slug)
  }

  ghost predicate HasListed(t: Tables, slug: string) {
    exists p :: p in t.providers && t.providers[p].component.ProxyForm? && t.providers[p].name == Marker(slug) && OnEmbedded(t, p)
  }

  /** What is true of one app: its marker-named provider of the right type exists and, for
      forward auth, is on the embedded outpost's list and served there. */
  ghost predicate IsLive(t: Tables, serves: bool, c: Check) {
    match c.kind
    case ForwardAuth => HasListed(t, c.slug) && serves
    case Saml => HasNamed(t, SamlForm, c.slug)
    case _ => HasNamed(t, OAuth2Form, c.slug)
  }

  /** A verdict other than unknown is the truth. */
  ghost predicate Judged(env: Env, clock: nat, t: Tables, c: Check, state: LiveState) {
    && (state.LiveConfirmed? ==> IsLive(t, env.serves(c.host, clock), c))
    && (state.LiveDrift? ==> !IsLive(t, env.serves(c.host, clock), c))
  }

  method ConfirmOne(api: Server, c: Check, attached: seq<nat>) returns (state: LiveState)
    requires api.Valid()
    requires c.kind.ForwardAuth? ==> forall p :: p in attached <==> OnEmbedded(api.tables, p)
    modifies api`calls, api`trace
    ensures Looked(api, state != LiveUnknown || (c.kind.ForwardAuth? && c.host == ""))
    ensures Judged(api.env, api.clock, api.tables, c, state)
  {
    hide WellFormed, FindOutpost, Marker;
    if c.kind.ForwardAuth? {
      var p := GetByName(api, ForwardAuth, Marker(c.slug));
      if p.Unreachable? {
        return LiveUnknown;
      }
      if p.value.None? {
        return LiveDrift;
      }
      OnlyNamed(api, ProxyForm, c.slug, p.value.value);
      if p.value.value !in attached {
        return LiveDrift;
      }
      var serves := api.Probe(c.host);
      if serves.Unreachable? {
        return LiveUnknown;
      }
      state := if serves.value then LiveConfirmed else LiveDrift;
    } else if c.kind.Saml? {
      var p := GetByName(api, Saml, Marker(c.slug));
      state := if p.Unreachable? then LiveUnknown else if p.value.None? then LiveDrift else LiveConfirmed;
    } else {
      var p := GetOAuth2ByName(api, Marker(c.slug));
      state := if p.Unreachable? then LiveUnknown else if p.value.None? then LiveDrift else LiveConfirmed;
    }
  }

  lemma OnlyNamed(api: Server, component: Component, slug: string, p: nat)
    requires api.Valid() && p in api.tables.providers && api.tables.providers[p].name == Marker(slug)
    ensures forall q | q in api.tables.providers && api.tables.providers[q].name == Marker(slug) :: q == p
  {
  }

  /** A verdict per app. The embedded list is read once, and only if some app needs it. */
  method ConfirmLive(api: Server, checks: seq<Check>) returns (r: Reply<seq<LiveState>>)
    requires api.Valid()
    modifies api`calls, api`trace
    ensures Looked(api, r.Answer?)
    ensures r.Answer? ==> |r.value| == |checks|
    ensures r.Answer? ==> forall i | 0 <= i < |checks| :: Judged(api.env, api.clock, api.tables, checks[i], r.value[i])
    ensures r.Answer? && Calm(api.env, old(api.calls)) ==>
              forall i | 0 <= i < |checks| :: r.value[i] != LiveUnknown || (checks[i].kind.ForwardAuth? && checks[i].host == "")
  {
    hide WellFormed, FindOutpost, Marker, Judged;
    var attached := [];
    var i := 0;
    while i < |checks| && !checks[i].kind.ForwardAuth?
      invariant 0 <= i <= |checks| && forall j | 0 <= j < i :: !checks[j].kind.ForwardAuth?
    {
      i := i + 1;
    }
    if i < |checks| {
      var embedded := api.Fetch(FindOutpost(api.tables.outposts, EMBEDDED));
      if embedded.Unreachable? {
        return Unreachable;
      }
      if embedded.value.Some? {
        attached := api.tables.outposts[embedded.value.value].providers;
      }
    }
    assert i < |checks| ==> forall p :: p in attached <==> OnEmbedded(api.tables, p);
    var states := [];
    for k := 0 to |checks|
      invariant |states| == k && old(api.calls) <= api.calls
      invariant old(api.trace) <= api.trace && Reads(api.trace, |old(api.trace)|, api.tables)
      invariant forall j | 0 <= j < k :: Judged(api.env, api.clock, api.tables, checks[j], states[j])
      invariant Calm(api.env, old(api.calls)) ==>
                  forall j | 0 <= j < k :: states[j] != LiveUnknown || (checks[j].kind.ForwardAuth? && checks[j].host == "")
    {
      var state := ConfirmOne(api, checks[k], attached);
      states := states + [state];
    }
    r := Answer(states);
  }

  /** A converged app is live, except that forward auth must also be served and the outpost it
      was attached to must be the embedded one or list it there too. */
  lemma ConvergedIsLive(cfg: Config, lib: Library, s: Spec, t: Tables, serves: bool)
    requires WellFormed(t) && Converged(cfg, lib, s, t)
    ensures IsLive(t, serves, Check(s.slug, s.host, s.provider)) <==>
              (s.provider.ForwardAuth? ==> serves && (OutpostName(cfg, s) == EMBEDDED || OnEmbedded(t, t.apps[s.slug].provider.value)))
  {
    var pk := t.apps[s.slug].provider.value;
    DesiredName(cfg, lib, s);
    assert t.providers[pk].name == Marker(s.slug) && t.providers[pk].component == ComponentOf(s.provider);
    forall q | q in t.providers && t.providers[q].name == Marker(s.slug) ensures q == pk {
      SameRow(t, s, q, pk);
    }
    hide Marker, DesiredBody, Overlay;
  }

  // An outpost of its own.

  const EDGE_CONFIG := Config("authorize", "invalidate", EMBEDDED, [], false, "", "", "", 60, name => None)
  const EDGE_LIBRARY := Library(map["authorize" := "f1", "invalidate" := "f2"], map[], map[], None, map[], map[], [])
  const EDGE_APP := NOTHING.(enable := true, name := "app", slug := "app", title := "App", host := "h", outpost := "edge")

  /** The app's provider on the outpost the app names, and the embedded outpost empty. */
  ghost const EDGE_STORE: Tables :=
    Tables(map[0 := NewProvider(ProxyForm, ProxyBody(EDGE_APP, "f1", "f2"))], map["app" := Application(1, "App", Some(0), "any", map[])],
           map[], map[], [Outpost("main", true, []), Outpost("edge", false, [0])], 2)

  lemma EdgeOutposts()
    ensures FindOutpost(EDGE_STORE.outposts, EMBEDDED) == Some(0) && FindOutpost(EDGE_STORE.outposts, "edge") == Some(1)
  {
    var main := [Outpost("main", true, [])];
    assert main[..0] == [] && EDGE_STORE.outposts[..1] == main;
    assert FindOutpost([], EMBEDDED) == None && FindOutpost([], "edge") == None;
    assert FindOutpost(main, EMBEDDED) == Some(0) && FindOutpost(main, "edge") == None;
  }

  lemma EdgeIsWellFormed()
    ensures WellFormed(EDGE_STORE)
  {
    hide NewProvider, ProxyBody;
  }

  lemma EdgeIsReady()
    ensures Ready(EDGE_CONFIG, EDGE_LIBRARY, EDGE_APP, EDGE_STORE)
  {
    assert EDGE_STORE.providers[0].name == Marker("app") && EDGE_STORE.providers[0].component == ProxyForm;
    assert ExactlyBound(map[], 1, []);
    assert WantedKeys(EDGE_CONFIG, EDGE_LIBRARY, EDGE_APP, map[]) == [];
    hide ProxyBody, Marker, NewProvider, ExactlyBound, WantedKeys;
  }

  /** All that was asked for is there and served, and still it is reported as drifted. */
  lemma NamedOutpostIsDrift()
    ensures WellFormed(EDGE_STORE) && Converged(EDGE_CONFIG, EDGE_LIBRARY, EDGE_APP, EDGE_STORE)
    ensures !IsLive(EDGE_STORE, true, Check("app", "h", ForwardAuth))
  {
    EdgeOutposts();
    EdgeIsWellFormed();
    EdgeIsReady();
    hide FindOutpost, Marker, Ready, WellFormed;
  }
}
