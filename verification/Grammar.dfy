/** The grammar of labels: which suffixes exist, what families they belong to, and how their values
    are read. */
module Grammar {
  import opened Options
  import opened Text
  import opened Routers

  datatype Complaint =
    | Conflict | Unarmed | UnknownSuffix | Reserved | IndexedInvalid | IndexedConflict | SlugInvalid | ProviderInvalid
    | HostInvalid | HostMissing | HostAmbiguous | GroupsClaimInvalid | RequireInvalid | WrongProvider | ProxyNoneTraefik
    | ClientInvalid | RedirectInvalid | RedirectMissing | SecretMissing | SecretForbidden | BindingInvalid | AcsMissing | AcsInvalid

  /** Anything but the declared-but-unarmed warning is an error. */
  predicate HasError(issues: seq<Complaint>) {
    exists c :: c in issues && c != Unarmed
  }

  // The grammar of suffixes.

  const PUBLIC := "forwardauth.public."
  const REDIRECT := "oidc.redirect."

  const EXACT_KEYS: set<string> :=
    {"enable", "name", "slug", "title", "provider", "host", "flow", "adopt", "groups", "groups.claim", "policies", "require",
     "launch", "icon", "description"}
  const SINGLE_KEYS: set<string> :=
    {"outpost", "forwardauth.public", "traefik.routers", "oidc.redirect", "oidc.secret", "oidc.id", "oidc.client", "oidc.scopes",
     "saml.acs", "saml.audience", "saml.issuer", "saml.binding", "saml.mappings"}

  function ParseIndex(s: string): Option<nat> {
    match Atoi(s)
    case Some(n) => if n >= 0 then Some(n) else None
    case None => None
  }

  /** The index a suffix carries under an indexed family. */
  function IndexUnder(base: string, suffix: string): Option<nat> {
    if base <= suffix then ParseIndex(suffix[|base|..]) else None
  }

  /** A suffix the grammar knows. */
  predicate InGrammar(s: string) {
    s in EXACT_KEYS || s in SINGLE_KEYS || IndexUnder(PUBLIC, s).Some? || IndexUnder(REDIRECT, s).Some?
  }

  /** Labels for forward-auth apps only. */
  predicate IsForwardKey(s: string) {
    s in {"outpost", "forwardauth.public", "traefik.routers"} || PUBLIC <= s
  }

  predicate IsTraefikKey(s: string) {
    "traefik." <= s
  }

  predicate IsOidcKey(s: string) {
    "oidc." <= s
  }

  predicate IsSamlKey(s: string) {
    s == "saml" || "saml." <= s
  }

  predicate IsReserved(s: string) {
    s in {"users", "caddy"} || "users." <= s || "caddy." <= s
  }

  /** What is wrong with a suffix, if anything. */
  function Misfit(s: string): Option<Complaint> {
    if InGrammar(s) then None
    else if PUBLIC <= s || REDIRECT <= s then Some(IndexedInvalid)
    else if IsReserved(s) then Some(Reserved)
    else Some(UnknownSuffix)
  }

  /** The values of an indexed family: where one number is spelled twice, the greatest suffix wins. */
  ghost predicate IsIndexed(norm: Labels, base: string, idx: map<nat, string>) {
    && (forall n :: n in idx <==> exists s :: s in norm && IndexUnder(base, s) == Some(n))
    && (forall n | n in idx :: exists s :: s in norm && Greatest(norm, base, n, s) && idx[n] == norm[s])
  }

  ghost predicate Greatest(norm: Labels, base: string, n: nat, s: string) {
    IndexUnder(base, s) == Some(n) && forall r | r in norm && IndexUnder(base, r) == Some(n) :: r == s || Below(r, s)
  }

  lemma IndexedOneMore(norm: Labels, base: string, idx: map<nat, string>, s: string, v: string)
    requires IsIndexed(norm, base, idx) && s !in norm && forall r | r in norm :: Below(r, s)
    ensures match IndexUnder(base, s)
            case Some(n) => IsIndexed(norm[s := v], base, idx[n := v])
            case None => IsIndexed(norm[s := v], base, idx)
  {
    hide Below, IndexUnder;
    var after := norm[s := v];
    forall n | n in idx && IndexUnder(base, s) != Some(n)
      ensures exists r :: r in after && Greatest(after, base, n, r) && idx[n] == after[r]
    {
      StillGreatest(norm, after, base, n, s, idx[n]);
    }
    if IndexUnder(base, s).Some? {
      assert Greatest(after, base, IndexUnder(base, s).value, s);
    }
    hide Greatest;
    forall n: nat ensures (exists r :: r in after && IndexUnder(base, r) == Some(n)) <==> n in idx || IndexUnder(base, s) == Some(n) {
      NumbersGrow(norm, base, n, s, v);
    }
  }

  lemma StillGreatest(norm: Labels, after: Labels, base: string, n: nat, s: string, value: string)
    requires s in after && norm == after - {s} && IndexUnder(base, s) != Some(n)
    requires exists r :: r in norm && Greatest(norm, base, n, r) && value == norm[r]
    ensures exists r :: r in after && Greatest(after, base, n, r) && value == after[r]
  {
    hide Below, IndexUnder;
    var r :| r in norm && Greatest(norm, base, n, r) && value == norm[r];
    assert r in after && Greatest(after, base, n, r);
  }

  lemma NumbersGrow(norm: Labels, base: string, n: nat, s: string, v: string)
    ensures (exists r :: r in norm[s := v] && IndexUnder(base, r) == Some(n)) <==>
              (exists r :: r in norm && IndexUnder(base, r) == Some(n)) || IndexUnder(base, s) == Some(n)
  {
    hide IndexUnder;
    if r :| r in norm && IndexUnder(base, r) == Some(n) {
      assert r in norm[s := v];
    }
    assert s in norm[s := v];
  }

  /** The list holds the classified suffixes of one kind. */
  ghost predicate Filed(keys: seq<string>, done: Labels, kind: string -> bool) {
    forall s :: s in keys <==> s in done && kind(s)
  }

  lemma FiledOne(keys: seq<string>, done: Labels, kind: string -> bool, s: string, v: string)
    requires Filed(keys, done, kind)
    ensures Filed(if kind(s) then keys + [s] else keys, done[s := v], kind)
  {
  }

  ghost predicate Singles(single: map<string, string>, done: Labels) {
    (forall s :: s in single <==> s in done && s in SINGLE_KEYS) && forall s | s in single :: single[s] == done[s]
  }

  lemma SingleOne(single: map<string, string>, done: Labels, s: string, v: string)
    requires Singles(single, done)
    ensures Singles(if s in SINGLE_KEYS then single[s := v] else single, done[s := v]) || s in done
  {
  }

  /** What the classification pass has seen so far. */
  class Parse {
    var single: map<string, string>
    var publicIdx: map<nat, string>
    var redirectIdx: map<nat, string>
    var forwardKeys: seq<string>
    var traefikKeys: seq<string>
    var oidcKeys: seq<string>
    var samlKeys: seq<string>

    /** Everything in `done` is classified. */
    ghost predicate Seen(done: Labels)
      reads this
    {
      && Singles(single, done)
      && IsIndexed(done, PUBLIC, publicIdx) && IsIndexed(done, REDIRECT, redirectIdx)
      && Filed(forwardKeys, done, IsForwardKey) && Filed(traefikKeys, done, IsTraefikKey)
      && Filed(oidcKeys, done, IsOidcKey) && Filed(samlKeys, done, IsSamlKey)
    }

    constructor ()
      ensures Seen(map[])
    {
      single, publicIdx, redirectIdx := map[], map[], map[];
      forwardKeys, traefikKeys, oidcKeys, samlKeys := [], [], [], [];
    }

    /** Classifies one suffix; a suffix outside the grammar is a complaint. Suffixes come in order. */
    method Route(suffix: string, val: string, ghost done: Labels) returns (bad: Option<Complaint>)
      requires Seen(done) && suffix !in done && forall r | r in done :: Below(r, suffix)
      modifies this
      ensures Seen(done[suffix := val]) && bad == Misfit(suffix)
    {
      hide Below, IsIndexed, IndexUnder, IsReserved, Filed, Singles, InGrammar, IsForwardKey, IsTraefikKey, IsOidcKey, IsSamlKey;
      IndexedOneMore(done, PUBLIC, publicIdx, suffix, val);
      IndexedOneMore(done, REDIRECT, redirectIdx, suffix, val);
      SingleOne(single, done, suffix, val);
      FiledOne(forwardKeys, done, IsForwardKey, suffix, val);
      FiledOne(traefikKeys, done, IsTraefikKey, suffix, val);
      FiledOne(oidcKeys, done, IsOidcKey, suffix, val);
      FiledOne(samlKeys, done, IsSamlKey, suffix, val);
      Prefixes(suffix);
      bad := None;
      if suffix in EXACT_KEYS {
        return;
      }
      if suffix in SINGLE_KEYS {
        single := single[suffix := val];
      }
      if IsForwardKey(suffix) {
        forwardKeys := forwardKeys + [suffix];
      }
      if IsTraefikKey(suffix) {
        traefikKeys := traefikKeys + [suffix];
      }
      if IsOidcKey(suffix) {
        oidcKeys := oidcKeys + [suffix];
      }
      if IsSamlKey(suffix) {
        samlKeys := samlKeys + [suffix];
      }
      if suffix in SINGLE_KEYS {
        return;
      }
      var public, redirect := IndexUnder(PUBLIC, suffix), IndexUnder(REDIRECT, suffix);
      if public.Some? {
        publicIdx := publicIdx[public.value := val];
      } else if redirect.Some? {
        redirectIdx := redirectIdx[redirect.value := val];
      } else if PUBLIC <= suffix || REDIRECT <= suffix {
        bad := Some(IndexedInvalid);
      } else if IsReserved(suffix) {
        bad := Some(Reserved);
      } else {
        bad := Some(UnknownSuffix);
      }
    }
  }

  /** The families do not overlap, and the simple keys are in none of them. */
  lemma Prefixes(s: string)
    ensures s in EXACT_KEYS ==> !IsForwardKey(s) && !IsTraefikKey(s) && !IsOidcKey(s) && !IsSamlKey(s) && s !in SINGLE_KEYS
    ensures s in EXACT_KEYS || s in SINGLE_KEYS ==> IndexUnder(PUBLIC, s).None? && IndexUnder(REDIRECT, s).None?
    ensures !(IndexUnder(PUBLIC, s).Some? && IndexUnder(REDIRECT, s).Some?)
    ensures InGrammar(s) <==> s in EXACT_KEYS || s in SINGLE_KEYS || IndexUnder(PUBLIC, s).Some? || IndexUnder(REDIRECT, s).Some?
  {
    assert PUBLIC[0] == 'f' && REDIRECT[0] == 'o' && REDIRECT[5] == 'r';
    assert "title"[1] == 'i' && "slug"[1] == 'l' && "flow"[1] == 'l';
    assert IsTraefikKey(s) ==> s[0] == 't' && s[1] == 'r';
    assert IsSamlKey(s) ==> s[0] == 's' && s[1] == 'a';
    assert PUBLIC <= s ==> s[0] == 'f' && s[1] == 'o';
    assert IsOidcKey(s) ==> s[0] == 'o';
  }

  // The host.

  predicate IsBareHost(host: string) {
    host != "" && '/' !in host && ':' !in host && ' ' !in host && '\t' !in host
  }

  predicate IsRuleKey(key: string) {
    var parsed := NameField(key);
    parsed.Some? && parsed.value.0 != "" && parsed.value.1 == "rule"
  }

  predicate IsPattern(rule: string) {
    Contains(rule, "HostRegexp(") || Contains(rule, "HostSNI(")
  }

  ghost function Candidates(labels: Labels): set<string> {
    set k, h | k in labels && IsRuleKey(k) && h in HostLiterals(labels[k]) :: h
  }

  ghost predicate HasPattern(labels: Labels) {
    exists k :: k in labels && IsRuleKey(k) && IsPattern(labels[k])
  }

  /** The host all router rules agree on. */
  ghost predicate Infers(labels: Labels, host: string) {
    !HasPattern(labels) && Candidates(labels) == {host}
  }

  /** Why no host can be inferred. */
  ghost predicate Uninferred(labels: Labels, why: Complaint) {
    || (why.HostMissing? && !HasPattern(labels) && Candidates(labels) == {})
    || (why.HostAmbiguous? && (HasPattern(labels) || (Candidates(labels) != {} && forall h :: Candidates(labels) != {h})))
  }

  lemma RuleKeyAsWritten(key: string)
    ensures IsRuleKey(key) <==> exists n: string :: n != "" && '.' !in n && key == "traefik.http.routers." + n + ".rule"
  {
    if IsRuleKey(key) {
      var n := NameField(key).value.0;
      KeyIsRead(key, n, "rule");
      assert key == "traefik.http.routers." + n + ".rule";
    }
    forall n: string | n != "" && '.' !in n && key == "traefik.http.routers." + n + ".rule" ensures IsRuleKey(key) {
      assert key == LabelKey(n, "rule");
      KeyIsRead(key, n, "rule");
    }
  }

  /** The rule of some router names the host. */
  ghost predicate NamedByRule(labels: Labels, host: string) {
    exists n: string :: n != "" && '.' !in n && RuleNames(labels, "traefik.http.routers." + n + ".rule", host)
  }

  ghost predicate RuleNames(labels: Labels, key: string, host: string) {
    key in labels && host in HostLiterals(labels[key])
  }

  /** An inferred host is named by a router's rule, and no other host is. */
  lemma InferredAsWritten(labels: Labels, host: string)
    requires Infers(labels, host)
    ensures forall h :: NamedByRule(labels, h) <==> h == host
  {
    hide HostLiterals, IsRuleKey, IsPattern;
    forall h ensures NamedByRule(labels, h) <==> h in Candidates(labels) {
      if h in Candidates(labels) {
        var k :| k in labels && IsRuleKey(k) && h in HostLiterals(labels[k]);
        RuleKeyAsWritten(k);
        var n: string :| n != "" && '.' !in n && k == "traefik.http.routers." + n + ".rule";
        assert RuleNames(labels, "traefik.http.routers." + n + ".rule", h);
      }
      if NamedByRule(labels, h) {
        var n: string :| n != "" && '.' !in n && RuleNames(labels, "traefik.http.routers." + n + ".rule", h);
        RuleKeyAsWritten("traefik.http.routers." + n + ".rule");
      }
    }
  }

  datatype Inference = Host(host: string) | NoHost(why: Complaint)

  method InferHost(labels: Labels) returns (r: Inference)
    ensures r.Host? <==> exists h :: Infers(labels, h)
    ensures r.Host? ==> Infers(labels, r.host) && forall x :: !Uninferred(labels, x)
    ensures r.NoHost? ==> forall x :: Uninferred(labels, x) <==> x == r.why
  {
    hide HostLiterals, IsRuleKey, IsPattern;
    var distinct: set<string> := {};
    var pattern := false;
    var rest := labels.Keys;
    while rest != {}
      invariant rest <= labels.Keys
      invariant forall h :: h in distinct <==> exists k :: k in labels && k !in rest && IsRuleKey(k) && h in HostLiterals(labels[k])
      invariant pattern <==> exists k :: k in labels && k !in rest && IsRuleKey(k) && IsPattern(labels[k])
    {
      var k :| k in rest;
      rest := rest - {k};
      if IsRuleKey(k) {
        pattern := pattern || IsPattern(labels[k]);
        distinct := distinct + set h | h in HostLiterals(labels[k]);
      }
    }
    assert distinct == Candidates(labels);
    if pattern {
      return NoHost(HostAmbiguous);
    }
    if distinct == {} {
      return NoHost(HostMissing);
    }
    var h :| h in distinct;
    if distinct != {h} {
      NotOne(distinct, h);
      return NoHost(HostAmbiguous);
    }
    assert Infers(labels, h);
    return Host(h);
  }

  lemma NotOne(s: set<string>, h: string)
    requires h in s && s != {h}
    ensures forall x :: s != {x}
  {
  }

  // Fields with rules.

  /** The values of an indexed family in ascending order of their numbers. */
  ghost predicate Rising(keys: seq<nat>) {
    forall i, j | 0 <= i < j < |keys| :: keys[i] < keys[j]
  }

  ghost predicate InIndexOrder(idx: map<nat, string>, list: seq<string>) {
    exists keys: seq<nat> :: Enumerates(idx, keys, list)
  }

  ghost predicate Enumerates(idx: map<nat, string>, keys: seq<nat>, list: seq<string>) {
    && |keys| == |list| && Rising(keys)
    && (forall n :: n in keys <==> n in idx) && forall i | 0 <= i < |keys| :: keys[i] in idx && list[i] == idx[keys[i]]
  }

  method IndexedList(idx: map<nat, string>) returns (list: seq<string>)
    ensures InIndexOrder(idx, list) && (list == [] <==> idx == map[])
  {
    list := [];
    var keys: seq<nat> := [];
    var rest := idx.Keys;
    while rest != {}
      invariant rest <= idx.Keys && |keys| == |list|
      invariant Rising(keys)
      invariant forall n :: n in keys <==> n in idx && n !in rest
      invariant forall n, m | n in keys && m in rest :: n < m
      invariant forall i | 0 <= i < |keys| :: keys[i] in idx && list[i] == idx[keys[i]]
    {
      var n := Least(rest);
      assert forall i | 0 <= i < |keys| :: keys[i] in keys;
      keys, list, rest := keys + [n], list + [idx[n]], rest - {n};
    }
    NotEmpty(idx);
    assert keys != [] ==> keys[0] in keys;
    assert Enumerates(idx, keys, list);
  }

  lemma NotEmpty(m: map<nat, string>)
    ensures m != map[] <==> exists n :: n in m
  {
    if forall n :: n !in m {
      assert m.Keys == {};
    }
  }

  method Least(s: set<nat>) returns (n: nat)
    requires s != {}
    ensures n in s && forall m | m in s :: n <= m
  {
    n :| n in s;
    var rest := s - {n};
    while rest != {}
      invariant n in s && rest <= s && forall m | m in s && m !in rest :: n <= m
    {
      var m :| m in rest;
      rest := rest - {m};
      if m < n {
        n := m;
      }
    }
  }

  /** The comma form and the indexed form exclude each other. */
  ghost predicate BothForms(norm: Labels, csv: string, base: string) {
    Get(norm, csv) != "" && exists s :: s in norm && IndexUnder(base, s).Some?
  }

  ghost predicate IsList(norm: Labels, csv: string, base: string, list: seq<string>) {
    if BothForms(norm, csv, base) then list == []
    else if exists s :: s in norm && IndexUnder(base, s).Some? then exists idx :: IsIndexed(norm, base, idx) && InIndexOrder(idx, list)
    else list == Fields(Get(norm, csv))
  }

  lemma AnyIndexed(norm: Labels, base: string, idx: map<nat, string>)
    requires IsIndexed(norm, base, idx)
    ensures idx != map[] <==> exists s :: s in norm && IndexUnder(base, s).Some?
  {
    hide IndexUnder, Greatest;
    NotEmpty(idx);
    if s :| s in norm && IndexUnder(base, s).Some? {
      assert IndexUnder(base, s).value in idx;
    }
  }

  lemma ListIs(norm: Labels, key: string, base: string, idx: map<nat, string>)
    requires IsIndexed(norm, base, idx)
    ensures BothForms(norm, key, base) <==> Get(norm, key) != "" && idx != map[]
    ensures BothForms(norm, key, base) ==> IsList(norm, key, base, [])
    ensures forall list | !BothForms(norm, key, base) && idx != map[] && InIndexOrder(idx, list) :: IsList(norm, key, base, list)
    ensures idx == map[] ==> IsList(norm, key, base, Fields(Get(norm, key)))
  {
    AnyIndexed(norm, base, idx);
    hide IsIndexed, InIndexOrder, Fields, IndexUnder;
  }

  method ResolveList(ghost norm: Labels, csv: string, ghost key: string, idx: map<nat, string>, ghost base: string)
    returns (list: seq<string>, bad: bool)
    requires csv == Get(norm, key) && IsIndexed(norm, base, idx)
    ensures IsList(norm, key, base, list) && (bad <==> BothForms(norm, key, base))
  {
    ListIs(norm, key, base, idx);
    hide IsIndexed, InIndexOrder, Fields, IsList, BothForms;
    list, bad := [], csv != "" && idx != map[];
    if bad {
      return;
    }
    if idx != map[] {
      list := IndexedList(idx);
      return;
    }
    list := SplitCSV(csv);
  }

  // Two spellings of one number.

  /** The labels of an indexed family. */
  function Family(norm: Labels, base: string): set<string> {
    set s | s in norm && IndexUnder(base, s).Some?
  }

  ghost predicate NumbersDiffer(base: string, family: set<string>) {
    forall r, s | r in family && s in family && IndexUnder(base, r) == IndexUnder(base, s) :: r == s
  }

  function Numbers(base: string, family: set<string>): set<nat> {
    set s | s in family && IndexUnder(base, s).Some? :: IndexUnder(base, s).value
  }

  lemma {:induction false} FewerNumbers(base: string, family: set<string>)
    requires forall s | s in family :: IndexUnder(base, s).Some?
    ensures |Numbers(base, family)| <= |family|
    ensures |Numbers(base, family)| == |family| <==> NumbersDiffer(base, family)
  {
    if family != {} {
      hide IndexUnder;
      var s :| s in family;
      var rest, n := family - {s}, IndexUnder(base, s).value;
      FewerNumbers(base, rest);
      assert Numbers(base, family) == Numbers(base, rest) + {n};
      if n in Numbers(base, rest) {
        var r :| r in rest && IndexUnder(base, r) == Some(n);
        assert Numbers(base, family) == Numbers(base, rest);
        assert r in family && s in family && r != s;
      } else {
        assert NumbersDiffer(base, rest) ==> NumbersDiffer(base, family);
        assert NumbersDiffer(base, family) ==> NumbersDiffer(base, rest);
      }
    }
  }

  function Elements(keys: seq<nat>): set<nat> {
    if keys == [] then {} else Elements(keys[..|keys| - 1]) + {keys[|keys| - 1]}
  }

  lemma {:induction false} ElementsAreMembers(keys: seq<nat>)
    ensures forall n :: n in Elements(keys) <==> n in keys
  {
    if keys != [] {
      ElementsAreMembers(keys[..|keys| - 1]);
      assert keys == keys[..|keys| - 1] + [keys[|keys| - 1]];
    }
  }

  lemma {:induction false} AscendingCount(keys: seq<nat>)
    requires Rising(keys)
    ensures |Elements(keys)| == |keys|
  {
    if keys != [] {
      AscendingCount(keys[..|keys| - 1]);
      ElementsAreMembers(keys[..|keys| - 1]);
      hide Rising;
      LastIsMost(keys, keys[|keys| - 1]);
    }
  }

  /** The indices are the numbers of the family, once each. */
  lemma IndicesAreNumbers(norm: Labels, base: string, idx: map<nat, string>)
    requires IsIndexed(norm, base, idx)
    ensures idx.Keys == Numbers(base, Family(norm, base))
  {
    hide IndexUnder, Greatest;
    forall n ensures n in idx <==> n in Numbers(base, Family(norm, base)) {
      if n in idx {
        var r :| r in norm && IndexUnder(base, r) == Some(n);
        assert r in Family(norm, base);
      }
    }
  }

  lemma ListCount(idx: map<nat, string>, list: seq<string>)
    requires InIndexOrder(idx, list)
    ensures |list| == |idx.Keys|
  {
    var keys :| Enumerates(idx, keys, list);
    AscendingCount(keys);
    SameNumbers(idx, keys, list);
  }

  lemma SameNumbers(idx: map<nat, string>, keys: seq<nat>, list: seq<string>)
    requires Enumerates(idx, keys, list)
    ensures Elements(keys) == idx.Keys
  {
    ElementsAreMembers(keys);
    hide Elements, Rising;
  }

  /** An indexed list has one entry per label exactly when no two labels of the family spell the same
      number; otherwise a value is silently dropped. */
  lemma OneEntryPerLabel(norm: Labels, csv: string, base: string, list: seq<string>)
    requires IsList(norm, csv, base, list) && !BothForms(norm, csv, base) && Family(norm, base) != {}
    ensures |list| <= |Family(norm, base)|
    ensures |list| == |Family(norm, base)| <==> NumbersDiffer(base, Family(norm, base))
  {
    hide IndexUnder, IsIndexed, InIndexOrder;
    var s :| s in Family(norm, base);
    assert s in norm && IndexUnder(base, s).Some?;
    var idx :| IsIndexed(norm, base, idx) && InIndexOrder(idx, list);
    IndicesAreNumbers(norm, base, idx);
    ListCount(idx, list);
    FewerNumbers(base, Family(norm, base));
  }

  // One reading only.

  lemma {:induction false} OneAscending(a: seq<nat>, b: seq<nat>)
    requires Rising(a)
    requires Rising(b)
    requires forall n :: n in a <==> n in b
    ensures a == b
  {
    if a == [] {
      assert forall i | 0 <= i < |b| :: b[i] in b;
    } else {
      assert a[|a| - 1] in b && |b| > 0;
      assert b[|b| - 1] in a;
      LastIsMost(a, b[|b| - 1]);
      LastIsMost(b, a[|a| - 1]);
      var m, n := a[..|a| - 1], b[..|b| - 1];
      assert a == m + [a[|a| - 1]] && b == n + [b[|b| - 1]];
      forall x ensures x in m <==> x in n {
        LastIsMost(a, x);
        LastIsMost(b, x);
      }
      OneAscending(m, n);
    }
  }

  lemma LastIsMost(a: seq<nat>, x: nat)
    requires a != [] && Rising(a)
    ensures x in a ==> x <= a[|a| - 1]
    ensures x in a[..|a| - 1] <==> x in a && x < a[|a| - 1]
  {
    assert a == a[..|a| - 1] + [a[|a| - 1]];
  }

  lemma OneOrder(idx: map<nat, string>, a: seq<string>, b: seq<string>)
    requires InIndexOrder(idx, a) && InIndexOrder(idx, b)
    ensures a == b
  {
    hide Enumerates;
    var ka :| Enumerates(idx, ka, a);
    var kb :| Enumerates(idx, kb, b);
    SameEnumeration(idx, ka, kb, a, b);
    SameListing(idx, ka, a, b);
  }

  lemma SameListing(idx: map<nat, string>, keys: seq<nat>, a: seq<string>, b: seq<string>)
    requires Enumerates(idx, keys, a) && Enumerates(idx, keys, b)
    ensures a == b
  {
  }

  lemma SameEnumeration(idx: map<nat, string>, ka: seq<nat>, kb: seq<nat>, a: seq<string>, b: seq<string>)
    requires Enumerates(idx, ka, a) && Enumerates(idx, kb, b)
    ensures ka == kb
  {
    assert forall n :: n in ka <==> n in kb;
    OneAscending(ka, kb);
  }

  lemma OneIndex(norm: Labels, base: string, a: map<nat, string>, b: map<nat, string>)
    requires IsIndexed(norm, base, a) && IsIndexed(norm, base, b)
    ensures a == b
  {
    hide IndexUnder, Below;
    forall n ensures n in a <==> n in b {
    }
    forall n | n in a ensures a[n] == b[n] {
      var r :| r in norm && Greatest(norm, base, n, r) && a[n] == norm[r];
      var s :| s in norm && Greatest(norm, base, n, s) && b[n] == norm[s];
      BelowIsStrict(r, s, r);
    }
  }

  /** A list field has one reading. */
  lemma OneList(norm: Labels, csv: string, base: string, a: seq<string>, b: seq<string>)
    requires IsList(norm, csv, base, a) && IsList(norm, csv, base, b)
    ensures a == b
  {
    hide IsIndexed, InIndexOrder, IndexUnder, Fields;
    if !BothForms(norm, csv, base) && exists s :: s in norm && IndexUnder(base, s).Some? {
      var i :| IsIndexed(norm, base, i) && InIndexOrder(i, a);
      var j :| IsIndexed(norm, base, j) && InIndexOrder(j, b);
      OneIndex(norm, base, i, j);
      OneOrder(i, a, b);
    }
  }

  // Lists as they are written.

  /** The label holds the names in one comma list, padded or not. */
  ghost predicate CommaList(norm: Labels, suffix: string, names: seq<string>) {
    suffix in norm && exists pieces: seq<string> :: Padded(pieces, names) && norm[suffix] == Joined(pieces, ',')
  }

  ghost predicate Padded(pieces: seq<string>, names: seq<string>) {
    |pieces| == |names| && forall i | 0 <= i < |pieces| :: ',' !in pieces[i] && Trim(pieces[i]) == names[i] != ""
  }

  lemma CommaListIsRead(norm: Labels, suffix: string, names: seq<string>)
    requires CommaList(norm, suffix, names)
    ensures Fields(Get(norm, suffix)) == names
  {
    var pieces: seq<string> :| Padded(pieces, names) && norm[suffix] == Joined(pieces, ',');
    ListIsRead(pieces, names);
  }

  /** The labels hold the values one by one, numbered from zero. */
  ghost predicate Numbered(norm: Labels, base: string, values: seq<string>) {
    && (forall i | 0 <= i < |values| :: base + Itoa(i) in norm && norm[base + Itoa(i)] == values[i])
    && forall s | s in norm && base <= s :: exists i :: 0 <= i < |values| && s == base + Itoa(i)
  }

  lemma NumberIsRead(base: string, n: nat)
    requires n <= MAX64
    ensures IndexUnder(base, base + Itoa(n)) == Some(n)
  {
    PrintedIsRead(n);
    Visible(n);
    assert (base + Itoa(n))[|base|..] == Itoa(n);
  }

  /** Numbered labels are read as their values, in the order of the numbers. */
  lemma NumberedIsRead(norm: Labels, csv: string, base: string, values: seq<string>, list: seq<string>)
    requires Numbered(norm, base, values) && values != [] && |values| <= MAX64 && Get(norm, csv) == ""
    requires IsList(norm, csv, base, list)
    ensures list == values
  {
    hide IsList, Numbered, Get;
    NumberedIsList(norm, csv, base, values);
    OneList(norm, csv, base, list, values);
  }

  lemma NumberedIsList(norm: Labels, csv: string, base: string, values: seq<string>)
    requires Numbered(norm, base, values) && values != [] && |values| <= MAX64 && Get(norm, csv) == ""
    ensures IsList(norm, csv, base, values)
  {
    hide IndexUnder, Itoa, IsIndexed, InIndexOrder, Get, Fields;
    NumberedIndex(norm, base, values);
    InOrderOfNumbers(map n: nat | n < |values| :: values[n], seq(|values|, i requires 0 <= i < |values| => i as nat), values);
    NumberIsRead(base, 0);
    assert base + Itoa(0) in norm;
    hide Numbered;
  }

  lemma InOrderOfNumbers(idx: map<nat, string>, keys: seq<nat>, values: seq<string>)
    requires |keys| == |values| && (forall i | 0 <= i < |keys| :: keys[i] == i) && idx == map n: nat | n < |values| :: values[n]
    ensures InIndexOrder(idx, values)
  {
    forall n ensures n in keys <==> n in idx {
      if n in idx {
        assert keys[n] == n;
      }
    }
    assert Enumerates(idx, keys, values);
  }

  lemma NumberedIndex(norm: Labels, base: string, values: seq<string>)
    requires Numbered(norm, base, values) && |values| <= MAX64
    ensures IsIndexed(norm, base, map n: nat | n < |values| :: values[n])
  {
    hide Itoa, ParseIndex;
    forall s, n | s in norm && IndexUnder(base, s) == Some(n) ensures n < |values| && s == base + Itoa(n) {
      var i :| 0 <= i < |values| && s == base + Itoa(i);
      NumberIsRead(base, i);
    }
    forall n: nat | n < |values| ensures base + Itoa(n) in norm && Greatest(norm, base, n, base + Itoa(n)) && values[n] == norm[base + Itoa(n)] {
      NumberIsRead(base, n);
    }
  }
}
