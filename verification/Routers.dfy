/** Reading Traefik router labels: rules, and the routers a container declares. */
module Routers {
  import opened Options
  import opened Text

  // Rules.

  const HOST_OPEN := "Host(`"
  const CALLBACK_PATH := "/outpost.goauthentik.io/"

  function IndexOf(s: string, c: char): (i: Option<nat>)
    ensures match i
            case Some(k) => k < |s| && s[k] == c && c !in s[..k]
            case None => c !in s
  {
    if s == "" then None
    else if s[0] == c then Some(0)
    else
      match IndexOf(s[1..], c)
      case Some(k) =>
        assert s[..k + 1] == [s[0]] + s[1..][..k];
        Some(k + 1)
      case None =>
        assert s == [s[0]] + s[1..];
        None
  }

  /** The argument of a literal host matcher that starts the rule. */
  function LeadingHost(rule: string): (h: Option<string>)
    ensures h.Some? ==> '`' !in h.value && |HOST_OPEN| + |h.value| + 2 <= |rule|
  {
    if HOST_OPEN <= rule then
      var rest := rule[|HOST_OPEN|..];
      match IndexOf(rest, '`')
      case Some(k) => if k + 1 < |rest| && rest[k + 1] == ')' then Some(rest[..k]) else None
      case None => None
    else None
  }

  /** The non-empty literal hosts of a rule, left to right, without overlap. */
  function HostLiterals(rule: string): seq<string> {
    if rule == "" then []
    else
      match LeadingHost(rule)
      case Some(h) => (if h == "" then [] else [h]) + HostLiterals(rule[|HOST_OPEN| + |h| + 2..])
      case None => HostLiterals(rule[1..])
  }

  function HostMatch(host: string): string {
    HOST_OPEN + host + "`)"
  }

  lemma {:induction false} LiteralsAreQuotable(rule: string)
    ensures forall h | h in HostLiterals(rule) :: h != "" && '`' !in h
  {
    if rule != "" {
      match LeadingHost(rule)
      case Some(h) => LiteralsAreQuotable(rule[|HOST_OPEN| + |h| + 2..]);
      case None => LiteralsAreQuotable(rule[1..]);
    }
  }

  lemma {:induction false} FirstIndex(s: string, c: char, rest: string)
    requires c !in s
    ensures IndexOf(s + [c] + rest, c) == Some(|s|)
  {
    if s != "" {
      assert (s + [c] + rest)[1..] == s[1..] + [c] + rest;
      FirstIndex(s[1..], c, rest);
    }
  }

  /** A rule that starts with the printed matcher for a host is read back as matching that host
      exactly when the host is not empty and has no backtick. */
  lemma PrintedHostIsRead(host: string, rest: string)
    ensures host in HostLiterals(HostMatch(host) + rest) <==> host != "" && '`' !in host
    ensures host != "" && '`' !in host ==> HostLiterals(HostMatch(host) + rest) == [host] + HostLiterals(rest)
  {
    var rule := HostMatch(host) + rest;
    LiteralsAreQuotable(rule);
    if '`' !in host {
      var tail := rule[|HOST_OPEN|..];
      assert tail == host + ['`'] + (")" + rest);
      FirstIndex(host, '`', ")" + rest);
      assert tail[|host| + 1] == ')' && tail[..|host|] == host;
      assert rule[|HOST_OPEN| + |host| + 2..] == rest;
    }
  }

  /** What stands in front of the first host matcher says nothing about hosts. */
  lemma {:induction false} HostsBegin(rule: string, i: nat)
    requires i <= |rule| && forall j | 0 <= j < i :: !OccursAt(rule, "Host(`", j)
    ensures HostLiterals(rule) == HostLiterals(rule[i..])
  {
    if i > 0 {
      assert !OccursAt(rule, "Host(`", 0);
      OpensOrNot(rule);
      forall j | 0 <= j < i - 1 ensures !OccursAt(rule[1..], "Host(`", j) {
        assert !OccursAt(rule, "Host(`", j + 1);
        assert j + 6 <= |rule| - 1 ==> rule[1..][j..j + 6] == rule[j + 1..j + 7];
      }
      HostsBegin(rule[1..], i - 1);
      assert rule[1..][i - 1..] == rule[i..];
    } else {
      assert rule[0..] == rule;
    }
  }

  lemma OpensOrNot(rule: string)
    ensures HOST_OPEN <= rule <==> OccursAt(rule, "Host(`", 0)
  {
    assert |rule| >= 6 ==> rule[0..0 + 6] == rule[..6];
  }

  /** The first matcher in a rule, wherever it stands, gives the first host. */
  lemma FirstHostIsRead(before: string, host: string, rest: string)
    requires host != "" && '`' !in host
    requires forall j | 0 <= j < |before| :: !OccursAt(before + "Host(`" + host + "`)" + rest, "Host(`", j)
    ensures HostLiterals(before + "Host(`" + host + "`)" + rest) == [host] + HostLiterals(rest)
  {
    hide HostLiterals, OccursAt;
    var rule := before + "Host(`" + host + "`)" + rest;
    HostsBegin(rule, |before|);
    PrintedHostIsRead(host, rest);
    assert rule == before + (HostMatch(host) + rest);
    assert (before + (HostMatch(host) + rest))[|before|..] == HostMatch(host) + rest;
  }

  /** A rule without such a matcher names no host. */
  lemma NoHostIsRead(rule: string)
    requires forall j | 0 <= j < |rule| :: !OccursAt(rule, "Host(`", j)
    ensures HostLiterals(rule) == []
  {
    HostsBegin(rule, |rule|);
  }

  predicate IsCallbackRule(rule: string) {
    Contains(rule, "PathPrefix(") && Contains(rule, CALLBACK_PATH)
  }

  // Labels.

  const ROUTERS := "traefik.http.routers."
  const UNSET := -1

  datatype Router = Router(rule: string, hosts: seq<string>, middlewares: seq<string>, priority: int, service: string)

  const BLANK := Router("", [], [], UNSET, "")

  function LabelKey(name: string, field: string): string {
    ROUTERS + name + "." + field
  }

  /** The router and the field a label is about. */
  function NameField(k: string): (parsed: Option<(string, string)>)
    ensures parsed.Some? ==> '.' !in parsed.value.0
  {
    if ROUTERS <= k then
      var rest := k[|ROUTERS|..];
      match IndexOf(rest, '.')
      case Some(dot) => Some((rest[..dot], rest[dot + 1..]))
      case None => None
    else None
  }

  /** A label key is the router name, up to the first dot, and the field after it. */
  lemma KeyIsRead(k: string, name: string, field: string)
    ensures NameField(k) == Some((name, field)) <==> k == LabelKey(name, field) && '.' !in name
  {
    if k == LabelKey(name, field) && '.' !in name {
      assert k[|ROUTERS|..] == name + ['.'] + field;
      FirstIndex(name, '.', field);
      assert k[|ROUTERS|..][..|name|] == name && k[|ROUTERS|..][|name| + 1..] == field;
    }
    if NameField(k) == Some((name, field)) {
      var rest := k[|ROUTERS|..];
      assert rest == name + "." + field;
      assert k == ROUTERS + rest;
    }
  }

  function Get(labels: Labels, key: string): string {
    if key in labels then labels[key] else ""
  }

  /** An integer, or unset when the text is not one that fits. */
  function PriorityOf(text: string): int {
    if Atoi(Trim(text)).Some? then Atoi(Trim(text)).value else UNSET
  }

  function RouterOf(labels: Labels, name: string): Router {
    Router(Get(labels, LabelKey(name, "rule")), HostLiterals(Get(labels, LabelKey(name, "rule"))),
           if LabelKey(name, "middlewares") in labels then Fields(labels[LabelKey(name, "middlewares")]) else [],
           if LabelKey(name, "priority") in labels then PriorityOf(labels[LabelKey(name, "priority")]) else UNSET,
           Get(labels, LabelKey(name, "service")))
  }

  function Names(labels: Labels): set<string> {
    set k | k in labels && NameField(k).Some? :: NameField(k).value.0
  }

  function RoutersOf(labels: Labels): map<string, Router> {
    map n | n in Names(labels) :: RouterOf(labels, n)
  }

  /** What one label says about its router. */
  function WithField(r: Router, field: string, v: string): Router {
    match field
    case "rule" => r.(rule := v, hosts := HostLiterals(v))
    case "middlewares" => r.(middlewares := Fields(v))
    case "priority" => if Atoi(Trim(v)).Some? then r.(priority := Atoi(Trim(v)).value) else r
    case "service" => r.(service := v)
    case _ => r
  }

  lemma RouterWithOne(labels: Labels, k: string, v: string, name: string)
    requires k !in labels && '.' !in name
    ensures RouterOf(labels[k := v], name) ==
              if NameField(k).Some? && NameField(k).value.0 == name then WithField(RouterOf(labels, name), NameField(k).value.1, v)
              else RouterOf(labels, name)
  {
    KeyIsRead(k, name, "rule");
    KeyIsRead(k, name, "middlewares");
    KeyIsRead(k, name, "priority");
    KeyIsRead(k, name, "service");
    FieldsDiffer(name);
    hide HostLiterals, Fields, NameField, LabelKey;
    hide Atoi, Trim;
  }

  lemma FieldsDiffer(name: string)
    ensures |LabelKey(name, "rule")| == |ROUTERS| + |name| + 5 && |LabelKey(name, "middlewares")| == |ROUTERS| + |name| + 12
    ensures |LabelKey(name, "priority")| == |ROUTERS| + |name| + 9 && |LabelKey(name, "service")| == |ROUTERS| + |name| + 8
  {
  }

  /** One more label changes the one router it is about, whatever was read before. */
  lemma RoutersWithOne(labels: Labels, k: string, v: string)
    requires k !in labels
    ensures RoutersOf(labels[k := v]) ==
              match NameField(k)
              case None => RoutersOf(labels)
              case Some((name, field)) =>
                var was := if name in Names(labels) then RoutersOf(labels)[name] else BLANK;
                RoutersOf(labels)[name := WithField(was, field, v)]
  {
    hide HostLiterals, Fields, LabelKey, PriorityOf, WithField, RouterOf, NameField;
    var after := labels[k := v];
    NamesWithOne(labels, k, v);
    forall n | n in Names(after)
      ensures RouterOf(after, n) ==
                if NameField(k).Some? && NameField(k).value.0 == n then WithField(RouterOf(labels, n), NameField(k).value.1, v)
                else RouterOf(labels, n)
    {
      RouterWithOne(labels, k, v, n);
    }
    if NameField(k).Some? && NameField(k).value.0 !in Names(labels) {
      UnnamedIsBlank(labels, NameField(k).value.0);
    }
  }

  lemma NamesWithOne(labels: Labels, k: string, v: string)
    requires k !in labels
    ensures Names(labels[k := v]) == Names(labels) + if NameField(k).Some? then {NameField(k).value.0} else {}
  {
    hide NameField;
  }

  lemma UnnamedIsBlank(labels: Labels, n: string)
    requires '.' !in n && n !in Names(labels)
    ensures RouterOf(labels, n) == BLANK
  {
    KeyIsRead(LabelKey(n, "rule"), n, "rule");
    KeyIsRead(LabelKey(n, "middlewares"), n, "middlewares");
    KeyIsRead(LabelKey(n, "priority"), n, "priority");
    KeyIsRead(LabelKey(n, "service"), n, "service");
    hide LabelKey, NameField;
  }

  /** Reads every router label, in whatever order the map yields them. */
  method ParseRouters(labels: Labels) returns (routers: map<string, Router>)
    ensures routers == RoutersOf(labels)
  {
    hide WithField, RouterOf, NameField;
    routers := map[];
    var rest := labels.Keys;
    ghost var done: Labels := map[];
    while rest != {}
      invariant rest <= labels.Keys && done == labels - rest
      invariant routers == RoutersOf(done)
    {
      var k :| k in rest;
      RoutersWithOne(done, k, labels[k]);
      done := done[k := labels[k]];
      rest := rest - {k};
      var parsed := NameField(k);
      if parsed.Some? {
        var (name, field) := parsed.value;
        var r := if name in routers then routers[name] else BLANK;
        routers := routers[name := WithField(r, field, labels[k])];
      }
    }
    assert labels - {} == labels;
  }

  // Routers as they are written.

  lemma KeysAsWritten(name: string, field: string)
    requires '.' !in name
    ensures LabelKey(name, field) == "traefik.http.routers." + name + "." + field
    ensures NameField("traefik.http.routers." + name + "." + field) == Some((name, field))
  {
    KeyIsRead(LabelKey(name, field), name, field);
  }

  /** A router is there when any label bears its name. */
  lemma RouterIsNamed(labels: Labels, name: string)
    requires '.' !in name
    ensures name in RoutersOf(labels) <==> exists field :: "traefik.http.routers." + name + "." + field in labels
  {
    hide NameField, LabelKey, RouterOf;
    if field :| "traefik.http.routers." + name + "." + field in labels {
      KeysAsWritten(name, field);
    }
    if name in RoutersOf(labels) {
      var k :| k in labels && NameField(k).Some? && NameField(k).value.0 == name;
      KeyIsRead(k, name, NameField(k).value.1);
      KeysAsWritten(name, NameField(k).value.1);
    }
  }

  /** And it is what its four labels say. */
  lemma RouterAsWritten(labels: Labels, name: string)
    requires '.' !in name && name in RoutersOf(labels)
    ensures var r, key := RoutersOf(labels)[name], "traefik.http.routers." + name + ".";
            && r.rule == Get(labels, key + "rule") && r.hosts == HostLiterals(r.rule)
            && r.middlewares == Fields(Get(labels, key + "middlewares")) && r.service == Get(labels, key + "service")
            && (key + "priority" !in labels ==> r.priority == -1)
            && forall n | MIN64 <= n <= MAX64 && key + "priority" in labels && Trim(labels[key + "priority"]) == Itoa(n) :: r.priority == n
  {
    hide NameField, LabelKey, Fields, HostLiterals, Trim, Itoa, Atoi;
    KeysAsWritten(name, "rule");
    KeysAsWritten(name, "middlewares");
    KeysAsWritten(name, "priority");
    KeysAsWritten(name, "service");
    assert Fields("") == [] by { NothingInNothing(); }
    forall n | MIN64 <= n <= MAX64 ensures Atoi(Itoa(n)) == Some(n) {
      PrintedIsRead(n);
      Visible(n);
    }
  }
}
