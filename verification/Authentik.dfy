/** The Authentik server as aboard sees it through REST: tables, the effect of each
    request on them, and a class whose every call is one atomic, possibly failing step. */
module Authentik {

  import opened Options

  /** Provider types as the labels name them. `Unrecognised` stands for any other string. */
  datatype ProviderType = ForwardAuth | Oidc | Saml | Unrecognised

  /** The concrete type of a provider row. */
  datatype Component = ProxyForm | OAuth2Form | SamlForm | OtherForm

  /** REST collections. The oauth2 one also serves proxy rows, which are a subclass. */
  datatype Endpoint = Proxies | OAuth2s | Samls | All

  datatype Provider = Provider(component: Component, name: string, externalHost: string,
                               fields: map<string, string>, mappings: seq<string>)
  datatype Application = Application(pk: nat, name: string, provider: Option<nat>, mode: string,
                                     meta: map<string, string>)
  datatype Binding = Binding(target: nat, group: Option<string>, policy: Option<string>, order: nat)
  datatype Outpost = Outpost(name: string, embedded: bool, providers: seq<nat>)

  /** What aboard reads or writes. Applications are keyed by slug, groups by name (giving the
      pk), providers and bindings by pk; an outpost's pk is its position. */
  datatype Tables = Tables(providers: map<nat, Provider>, apps: map<string, Application>,
                           bindings: map<nat, Binding>, groups: map<string, string>,
                           outposts: seq<Outpost>, next: nat)

  /** Tables aboard only ever reads, by name. */
  datatype Library = Library(flows: map<string, string>, policies: map<string, string>,
                             certificates: map<string, string>, firstKey: Option<string>,
                             scopes: map<string, string>, samlMappings: map<string, string>,
                             managedSaml: seq<string>)

  /** Request bodies. An empty string, map or sequence is omitted from the request. */
  datatype ProviderBody = ProviderBody(name: string, externalHost: string,
                                       fields: map<string, string>, mappings: seq<string>)
  datatype AppBody = AppBody(name: string, provider: nat, mode: string, meta: map<string, string>)

  datatype Op =
    | Read
    | CreateGroup(group: string)
    | CreateProvider(kind: Component, body: ProviderBody)
    | PatchProvider(endpoint: Endpoint, pk: nat, body: ProviderBody)
    | DeleteProvider(endpoint: Endpoint, pk: nat)
    | CreateApp(slug: string, app: AppBody)
    | PatchApp(slug: string, app: AppBody)
    | SetIcon(slug: string, url: string)
    | DeleteApp(slug: string)
    | CreateBinding(binding: Binding)
    | DeleteBinding(pk: nat)
    | PatchOutpost(outpost: nat, providers: seq<nat>)

  /** A request is applied, answered 404, or refused as invalid. `pk` names the row written. */
  datatype Effect = Applied(tables: Tables, pk: nat) | Absent | Refused

  function Lookup<K, V>(m: map<K, V>, k: K): Option<V> {
    if k in m then Some(m[k]) else None
  }

  predicate Serves(endpoint: Endpoint, component: Component) {
    match endpoint
    case Proxies => component.ProxyForm?
    case OAuth2s => component.OAuth2Form? || component.ProxyForm?
    case Samls => component.SamlForm?
    case All => true
  }

  predicate Reachable(t: Tables, endpoint: Endpoint, pk: nat) {
    pk in t.providers && Serves(endpoint, t.providers[pk].component)
  }

  /** No row other than `self` carries `name`. */
  predicate NameFree(t: Tables, name: string, self: nat) {
    forall p | p in t.providers && p != self :: t.providers[p].name != name
  }

  /** The provider is in nobody else's application: the link is one-to-one. */
  predicate LinkFree(t: Tables, provider: nat, slug: string) {
    provider in t.providers && forall other | other in t.apps && other != slug :: t.apps[other].provider != Some(provider)
  }

  function Kept(sent: string, stored: string): string {
    if sent == "" then stored else sent
  }

  function Overlay(p: Provider, b: ProviderBody): Provider {
    Provider(p.component, Kept(b.name, p.name), Kept(b.externalHost, p.externalHost), p.fields + b.fields,
             if b.mappings == [] then p.mappings else b.mappings)
  }

  function OverlayApp(a: Application, b: AppBody): Application {
    Application(a.pk, Kept(b.name, a.name), Some(b.provider), Kept(b.mode, a.mode), a.meta + b.meta)
  }

  function NewProvider(c: Component, b: ProviderBody): Provider {
    Provider(c, b.name, b.externalHost, b.fields, b.mappings)
  }

  function Unlinked(a: Application, pk: nat): Application {
    if a.provider == Some(pk) then a.(provider := None) else a
  }

  /** A fresh, non-empty pk for a new group. */
  function GroupPk(n: nat): (pk: string)
    ensures pk != ""
  {
    seq(n + 1, _ => 'g')
  }

  /** What the server does with one request. Outpost lists are not cleaned up when a provider
      is deleted, so anything proved about them rests on the order of aboard's own requests. */
  function Apply(t: Tables, op: Op): Effect {
    match op
    case Read => Applied(t, 0)
    case CreateGroup(g) =>
      if g in t.groups then Refused else Applied(t.(groups := t.groups[g := GroupPk(t.next)], next := t.next + 1), t.next)
    case CreateProvider(c, b) =>
      if !NameFree(t, b.name, t.next) then Refused
      else Applied(t.(providers := t.providers[t.next := NewProvider(c, b)], next := t.next + 1), t.next)
    case PatchProvider(e, pk, b) =>
      if !Reachable(t, e, pk) then Absent
      else if b.name != "" && !NameFree(t, b.name, pk) then Refused
      else Applied(t.(providers := t.providers[pk := Overlay(t.providers[pk], b)]), pk)
    case DeleteProvider(e, pk) =>
      if !Reachable(t, e, pk) then Absent
      else Applied(t.(providers := t.providers - {pk}, apps := map s | s in t.apps :: Unlinked(t.apps[s], pk)), pk)
    case CreateApp(slug, b) =>
      if slug in t.apps || !LinkFree(t, b.provider, slug) then Refused
      else Applied(t.(apps := t.apps[slug := Application(t.next, b.name, Some(b.provider), b.mode, b.meta)],
                      next := t.next + 1), t.next)
    case PatchApp(slug, b) =>
      if slug !in t.apps then Absent
      else if !LinkFree(t, b.provider, slug) then Refused
      else Applied(t.(apps := t.apps[slug := OverlayApp(t.apps[slug], b)]), t.apps[slug].pk)
    case SetIcon(slug, url) =>
      if slug !in t.apps then Absent
      else Applied(t.(apps := t.apps[slug := t.apps[slug].(meta := t.apps[slug].meta["meta_icon" := url])]), t.apps[slug].pk)
    case DeleteApp(slug) =>
      if slug !in t.apps then Absent else Applied(t.(apps := t.apps - {slug}), t.apps[slug].pk)
    case CreateBinding(b) =>
      if b.target >= t.next then Refused else Applied(t.(bindings := t.bindings[t.next := b], next := t.next + 1), t.next)
    case DeleteBinding(pk) =>
      if pk !in t.bindings then Absent else Applied(t.(bindings := t.bindings - {pk}), pk)
    case PatchOutpost(o, ps) =>
      if o >= |t.outposts| then Absent
      else Applied(t.(outposts := t.outposts[o := t.outposts[o].(providers := ps)]), o)
  }

  /** Provider names are unique, rows are numbered below `next`, applications share neither pk
      nor provider, and groups have non-empty pks. */
  ghost predicate WellFormed(t: Tables) {
    NamesUnique(t) && RowsBelow(t) && AppsDistinct(t) && GroupsReal(t)
  }

  ghost predicate NamesUnique(t: Tables) {
    forall p, q | p in t.providers && q in t.providers && p != q :: t.providers[p].name != t.providers[q].name
  }

  ghost predicate RowsBelow(t: Tables) {
    && (forall p | p in t.providers :: p < t.next)
    && (forall b | b in t.bindings :: b < t.next && t.bindings[b].target < t.next)
    && (forall s | s in t.apps :: t.apps[s].pk < t.next && (t.apps[s].provider.Some? ==> t.apps[s].provider.value < t.next))
  }

  ghost predicate AppsDistinct(t: Tables) {
    forall s, r | s in t.apps && r in t.apps && s != r ::
      t.apps[s].pk != t.apps[r].pk && (t.apps[s].provider.Some? ==> t.apps[s].provider != t.apps[r].provider)
  }

  ghost predicate GroupsReal(t: Tables) {
    forall g | g in t.groups :: t.groups[g] != ""
  }

  lemma ApplyKeepsNames(t: Tables, op: Op)
    requires NamesUnique(t) && RowsBelow(t) && Apply(t, op).Applied?
    ensures NamesUnique(Apply(t, op).tables)
  {
  }

  lemma ApplyKeepsRows(t: Tables, op: Op)
    requires RowsBelow(t) && Apply(t, op).Applied?
    ensures RowsBelow(Apply(t, op).tables) && t.next <= Apply(t, op).tables.next
  {
  }

  lemma ApplyKeepsApps(t: Tables, op: Op)
    requires RowsBelow(t) && AppsDistinct(t) && Apply(t, op).Applied?
    ensures AppsDistinct(Apply(t, op).tables)
  {
    hide NameFree, Reachable, Overlay, NewProvider, GroupPk, Kept;
  }

  /** Every request, applied or not, keeps the server's own invariants. */
  lemma ApplyKeepsWellFormed(t: Tables, op: Op)
    requires WellFormed(t) && Apply(t, op).Applied?
    ensures WellFormed(Apply(t, op).tables) && t.next <= Apply(t, op).tables.next
  {
    ApplyKeepsNames(t, op);
    ApplyKeepsRows(t, op);
    ApplyKeepsApps(t, op);
    hide NamesUnique, RowsBelow, AppsDistinct;
    assert GroupsReal(Apply(t, op).tables);
  }

  /** How one request fares: it works, it never arrives, or it is applied and the reply is lost. */
  datatype Fault = Works | Down | LostReply

  /** The outside world: which requests fail, when the live outpost serves a host, and which
      sleeps are cut short by a shutdown. */
  datatype Env = Env(fault: nat -> Fault, serves: (string, nat) -> bool, wakes: nat -> bool)

  /** No request from the `from`-th on fails. */
  ghost predicate Calm(env: Env, from: nat) {
    forall k: nat :: from <= k ==> env.fault(k) == Works
  }

  /** The next `n` requests work. */
  ghost predicate AllWork(env: Env, from: nat, n: nat) {
    forall k: nat | from <= k < from + n :: env.fault(k) == Works
  }

  datatype Reply<+T> = Answer(value: T) | Unreachable
  datatype WriteReply = Written(pk: nat) | Missing | Failed

  /** One request and the tables right after it. */
  datatype Entry = Entry(op: Op, after: Tables)

  /** From the `n`-th request on, the trace holds only reads of `t`. */
  ghost predicate Reads(trace: seq<Entry>, n: nat, t: Tables) {
    n <= |trace| && forall i | n <= i < |trace| :: trace[i] == Entry(Read, t)
  }

  lemma NotReads(trace: seq<Entry>, n: nat, t: Tables)
    requires n < |trace| && !trace[|trace| - 1].op.Read?
    ensures !Reads(trace, n, t)
  {
    assert trace[|trace| - 1] != Entry(Read, t);
  }

  class Server {
    var tables: Tables
    const lib: Library
    const env: Env
    var calls: nat
    var clock: nat
    ghost var trace: seq<Entry>

    ghost predicate Valid()
      reads this
    {
      WellFormed(tables) && forall p | p in lib.policies :: lib.policies[p] != ""
    }

    constructor (tables: Tables, lib: Library, env: Env)
      requires WellFormed(tables) && forall p | p in lib.policies :: lib.policies[p] != ""
      ensures Valid() && this.tables == tables && this.lib == lib && this.env == env && calls == 0 && clock == 0 && trace == []
    {
      this.tables, this.lib, this.env := tables, lib, env;
      calls, clock, trace := 0, 0, [];
    }

    /** One read. The caller computes `answer` from the tables of this very moment. */
    method Fetch<T>(answer: T) returns (r: Reply<T>)
      modifies this`calls, this`trace
      ensures calls == old(calls) + 1 && trace == old(trace) + [Entry(Read, tables)]
      ensures r == if env.fault(old(calls)).Works? then Answer(answer) else Unreachable
    {
      r := if env.fault(calls).Works? then Answer(answer) else Unreachable;
      calls := calls + 1;
      trace := trace + [Entry(Read, tables)];
    }

    /** One write. */
    method Commit(op: Op) returns (r: WriteReply)
      requires Valid()
      modifies this`tables, this`calls, this`trace
      ensures Valid() && calls == old(calls) + 1 && trace == old(trace) + [Entry(op, tables)]
      ensures tables == old(tables) || (Apply(old(tables), op).Applied? && tables == Apply(old(tables), op).tables)
      ensures r.Written? ==> Apply(old(tables), op) == Applied(tables, r.pk)
      ensures r.Missing? ==> Apply(old(tables), op).Absent?
      ensures env.fault(old(calls)).Down? ==> r.Failed? && tables == old(tables)
      ensures env.fault(old(calls)).Works? ==>
                (r.Failed? <==> Apply(old(tables), op).Refused?) && (r.Missing? <==> Apply(old(tables), op).Absent?)
    {
      var effect := Apply(tables, op);
      var fault := env.fault(calls);
      if !fault.Down? && effect.Applied? {
        ApplyKeepsWellFormed(tables, op);
        tables := effect.tables;
      }
      r := if !fault.Works? then Failed else match effect {
        case Applied(_, pk) => Written(pk)
        case Absent => Missing
        case Refused => Failed
      };
      calls := calls + 1;
      trace := trace + [Entry(op, tables)];
    }

    /** Every provider the endpoint serves, in whatever order the server lists them. */
    method List(endpoint: Endpoint) returns (r: Reply<seq<nat>>)
      modifies this`calls, this`trace
      ensures calls == old(calls) + 1 && trace == old(trace) + [Entry(Read, tables)]
      ensures r.Answer? <==> env.fault(old(calls)).Works?
      ensures r.Answer? ==> forall p :: p in r.value <==> Reachable(tables, endpoint, p)
      ensures r.Answer? ==> forall i | 0 <= i < |r.value| :: Reachable(tables, endpoint, r.value[i])
      ensures r.Answer? ==> forall i, j | 0 <= i < j < |r.value| :: r.value[i] != r.value[j]
    {
      var rows := Enumerate(set p | p in tables.providers && Serves(endpoint, tables.providers[p].component));
      assert forall i | 0 <= i < |rows| :: rows[i] in rows;
      r := Fetch(rows);
    }

    /** Every binding of the application `target`, in whatever order the server lists them. */
    method ListBindings(target: nat) returns (r: Reply<seq<nat>>)
      modifies this`calls, this`trace
      ensures calls == old(calls) + 1 && trace == old(trace) + [Entry(Read, tables)]
      ensures r.Answer? <==> env.fault(old(calls)).Works?
      ensures r.Answer? ==> forall b :: b in r.value <==> b in tables.bindings && tables.bindings[b].target == target
      ensures r.Answer? ==> forall i | 0 <= i < |r.value| :: r.value[i] in tables.bindings && tables.bindings[r.value[i]].target == target
      ensures r.Answer? ==> forall i, j | 0 <= i < j < |r.value| :: r.value[i] != r.value[j]
    {
      var rows := Enumerate(set b | b in tables.bindings && tables.bindings[b].target == target);
      assert forall i | 0 <= i < |rows| :: rows[i] in rows;
      r := Fetch(rows);
    }

    /** Whether the live outpost answers for `host` right now; an empty host is an error. */
    method Probe(host: string) returns (r: Reply<bool>)
      modifies this`calls, this`trace
      ensures calls == old(calls) + 1 && trace == old(trace) + [Entry(Read, tables)]
      ensures r == if env.fault(old(calls)).Works? && host != "" then Answer(env.serves(host, clock)) else Unreachable
    {
      r := Fetch(env.serves(host, clock));
      if host == "" {
        r := Unreachable;
      }
    }

    /** Waits `d`, unless a shutdown cuts the wait short. */
    method Sleep(d: nat) returns (woke: bool)
      modifies this`clock
      ensures woke == env.wakes(old(clock))
      ensures clock == if woke then old(clock) + d else old(clock)
    {
      woke := env.wakes(clock);
      if woke {
        clock := clock + d;
      }
    }
  }

  /** The members of a finite set, in an arbitrary order. */
  method Enumerate(s: set<nat>) returns (q: seq<nat>)
    ensures forall x :: x in q <==> x in s
    ensures forall i, j | 0 <= i < j < |q| :: q[i] != q[j]
  {
    q := [];
    var rest := s;
    while rest != {}
      invariant forall x | x in s :: x in q || x in rest
      invariant forall x | x in q :: x in s && x !in rest
      invariant rest <= s
      invariant forall i, j | 0 <= i < j < |q| :: q[i] != q[j]
    {
      var x :| x in rest;
      q := q + [x];
      rest := rest - {x};
    }
  }
}
