/** Two label prefixes, one grammar. */
module Namespace {
  import opened Options
  import opened Authentik
  import opened Text

  const PRIMARY := "aboard."
  const ALIAS := "tagwright.auth."

  /** The suffix of a label under either prefix. */
  function StripPrefix(key: string): Option<string> {
    if PRIMARY <= key && key != PRIMARY then Some(key[|PRIMARY|..])
    else if ALIAS <= key && key != ALIAS then Some(key[|ALIAS|..])
    else None
  }

  /** A suffix has two spellings and no others, and the primary one sorts first. */
  lemma TwoSpellings(key: string, suffix: string)
    ensures StripPrefix(key) == Some(suffix) <==> suffix != "" && key in {PRIMARY + suffix, ALIAS + suffix}
    ensures Below(PRIMARY + suffix, ALIAS + suffix) && PRIMARY + suffix != ALIAS + suffix
  {
    assert (PRIMARY + suffix)[0] == 'a' && (ALIAS + suffix)[0] == 't';
    if StripPrefix(key) == Some(suffix) {
      assert key == PRIMARY + suffix || key == ALIAS + suffix;
    }
  }

  function Suffixes(labels: Labels): set<string> {
    set k | k in labels && StripPrefix(k).Some? :: StripPrefix(k).value
  }

  /** What the labels say for a suffix: the primary spelling where it is there, else the alias. */
  function Said(labels: Labels, s: string): string {
    if PRIMARY + s in labels then labels[PRIMARY + s] else if ALIAS + s in labels then labels[ALIAS + s] else ""
  }

  ghost function Merged(labels: Labels): Labels {
    map s | s in Suffixes(labels) :: Said(labels, s)
  }

  /** Both spellings are there and say different things. */
  ghost predicate Conflicted(labels: Labels, s: string) {
    s != "" && PRIMARY + s in labels && ALIAS + s in labels && labels[PRIMARY + s] != labels[ALIAS + s]
  }

  /** The keys to walk: every recognized one, in order. */
  ghost predicate Walk(labels: Labels, keys: seq<string>) {
    Ascending(keys) && forall k :: k in keys <==> k in labels && StripPrefix(k).Some?
  }

  /** Walking in order, a suffix is first met in its primary spelling when it has one, and met again
      only as the alias of it. */
  lemma PrimaryComesFirst(labels: Labels, keys: seq<string>, i: nat, s: string)
    requires Walk(labels, keys) && i < |keys| && StripPrefix(keys[i]) == Some(s)
    ensures keys[i] in keys && s != ""
    ensures if exists j :: 0 <= j < i && StripPrefix(keys[j]) == Some(s) then keys[i] == ALIAS + s && PRIMARY + s in labels
            else labels[keys[i]] == Said(labels, s) && (ALIAS + s == keys[i] ==> PRIMARY + s !in labels)
  {
    hide Below, Ascending;
    TwoSpellings(keys[i], s);
    if j :| 0 <= j < i && StripPrefix(keys[j]) == Some(s) {
      TwoSpellings(keys[j], s);
      InOrder(keys, j, i);
      assert keys[j] in keys;
    } else if keys[i] == ALIAS + s && PRIMARY + s in labels {
      TwoSpellings(PRIMARY + s, s);
      var j :| 0 <= j < |keys| && keys[j] == PRIMARY + s;
      if j > i {
        InOrder(keys, i, j);
      }
    }
  }

  lemma InOrder(keys: seq<string>, i: nat, j: nat)
    requires Ascending(keys) && i < j < |keys|
    ensures Below(keys[i], keys[j]) && !Below(keys[j], keys[i])
  {
    BelowIsStrict(keys[i], keys[j], keys[i]);
  }

  ghost predicate Met(keys: seq<string>, i: nat, s: string) {
    exists j :: 0 <= j < i && j < |keys| && StripPrefix(keys[j]) == Some(s)
  }

  /** A conflict whose second spelling is among the first `i` keys. */
  ghost predicate Found(labels: Labels, keys: seq<string>, i: nat, s: string) {
    i <= |keys| && Conflicted(labels, s) && ALIAS + s in keys[..i]
  }

  lemma MetOne(keys: seq<string>, i: nat, suffix: string)
    requires i < |keys| && StripPrefix(keys[i]) == Some(suffix)
    ensures forall s :: Met(keys, i + 1, s) <==> Met(keys, i, s) || s == suffix
  {
    hide StripPrefix;
    forall s | Met(keys, i, s) ensures Met(keys, i + 1, s) {
      var j :| 0 <= j < i && j < |keys| && StripPrefix(keys[j]) == Some(s);
      assert StripPrefix(keys[j]) == Some(s);
    }
  }

  /** One key more finds at most the conflict of its own suffix, and only when that was met before. */
  lemma FindOne(labels: Labels, keys: seq<string>, i: nat, suffix: string)
    requires Walk(labels, keys) && i < |keys| && StripPrefix(keys[i]) == Some(suffix)
    ensures keys[i] in labels
    ensures forall s :: Met(keys, i + 1, s) <==> Met(keys, i, s) || s == suffix
    ensures forall s :: Found(labels, keys, i + 1, s) <==>
                Found(labels, keys, i, s) || (s == suffix && Met(keys, i, s) && labels[keys[i]] != Said(labels, s))
    ensures !Met(keys, i, suffix) ==> labels[keys[i]] == Said(labels, suffix)
  {
    hide Below, Ascending;
    PrimaryComesFirst(labels, keys, i, suffix);
    MetOne(keys, i, suffix);
    assert keys[..i + 1] == keys[..i] + [keys[i]];
    forall s ensures ALIAS + s == keys[i] && s != "" ==> s == suffix {
      TwoSpellings(ALIAS + s, s);
    }
    TwoSpellings(keys[i], suffix);
    hide StripPrefix;
  }

  /** Folds both prefixes into one map from suffix to value. `conflicts` names the suffixes that are
      spelled twice with different values. */
  method MergeNamespaces(labels: Labels) returns (norm: Labels, conflicts: seq<string>)
    ensures norm == Merged(labels)
    ensures forall s :: s in conflicts <==> Conflicted(labels, s)
  {
    hide StripPrefix, Ascending, Met, Found, Conflicted, Said, Suffixes;
    var keys := SortedKeys(set k | k in labels && StripPrefix(k).Some?);
    norm, conflicts := map[], [];
    NoneMet(labels, keys);
    for i := 0 to |keys|
      invariant forall s :: s in norm <==> Met(keys, i, s)
      invariant forall s | s in norm :: norm[s] == Said(labels, s)
      invariant forall s :: s in conflicts <==> Found(labels, keys, i, s)
    {
      var key := keys[i];
      assert key in keys;
      var suffix := StripPrefix(key).value;
      FindOne(labels, keys, i, suffix);
      if suffix in norm {
        if norm[suffix] != labels[key] {
          conflicts := conflicts + [suffix];
        }
      } else {
        norm := norm[suffix := labels[key]];
      }
    }
    AllMet(labels, keys);
  }

  lemma NoneMet(labels: Labels, keys: seq<string>)
    ensures forall s :: !Met(keys, 0, s) && !Found(labels, keys, 0, s)
  {
  }

  lemma AllMet(labels: Labels, keys: seq<string>)
    requires Walk(labels, keys)
    ensures forall s :: Met(keys, |keys|, s) <==> s in Suffixes(labels)
    ensures forall s :: Found(labels, keys, |keys|, s) <==> Conflicted(labels, s)
  {
    forall s | s in Suffixes(labels) ensures Met(keys, |keys|, s) {
      var k :| k in labels && StripPrefix(k) == Some(s);
      assert k in keys;
    }
    forall s | Met(keys, |keys|, s) ensures s in Suffixes(labels) {
      var j :| 0 <= j < |keys| && StripPrefix(keys[j]) == Some(s);
      assert keys[j] in keys;
    }
    forall s | Conflicted(labels, s) ensures ALIAS + s in keys {
      TwoSpellings(ALIAS + s, s);
    }
    assert keys[..|keys|] == keys;
  }

  // Moving labels to the other prefix.

  /** `b` spells the suffixes of `moved` under the other prefix; each is spelled once in `a`, so no
      two labels collide. Everything else is as it was. */
  ghost predicate Respelled(a: Labels, b: Labels, moved: set<string>) {
    && "" !in moved
    && (forall k | StripPrefix(k).None? :: k in a <==> k in b)
    && (forall k | StripPrefix(k).None? && k in a :: a[k] == b[k])
    && (forall s :: Spelling(a, PRIMARY, s) == if s in moved then Spelling(b, ALIAS, s) else Spelling(b, PRIMARY, s))
    && (forall s :: Spelling(a, ALIAS, s) == if s in moved then Spelling(b, PRIMARY, s) else Spelling(b, ALIAS, s))
    && (forall s | s in moved :: Spelling(a, PRIMARY, s).None? || Spelling(a, ALIAS, s).None?)
  }

  function Spelling(labels: Labels, prefix: string, s: string): Option<string> {
    Lookup(labels, prefix + s)
  }

  lemma SuffixIff(labels: Labels, s: string)
    ensures s in Suffixes(labels) <==> s != "" && (Spelling(labels, PRIMARY, s).Some? || Spelling(labels, ALIAS, s).Some?)
  {
    TwoSpellings(PRIMARY + s, s);
    TwoSpellings(ALIAS + s, s);
    if s in Suffixes(labels) {
      var k :| k in labels && StripPrefix(k) == Some(s);
      TwoSpellings(k, s);
    }
  }

  /** The prefixes are interchangeable: the merged map and the conflicts do not change. */
  lemma RespellingChangesNothing(a: Labels, b: Labels, moved: set<string>)
    requires Respelled(a, b, moved)
    ensures Merged(a) == Merged(b)
    ensures forall s :: Conflicted(a, s) <==> Conflicted(b, s)
  {
    forall s ensures s in Suffixes(a) <==> s in Suffixes(b) {
      SuffixIff(a, s);
      SuffixIff(b, s);
      assert Spelling(a, PRIMARY, s) == if s in moved then Spelling(b, ALIAS, s) else Spelling(b, PRIMARY, s);
    }
    forall s ensures Said(a, s) == Said(b, s) && (Conflicted(a, s) <==> Conflicted(b, s)) {
      assert Spelling(a, PRIMARY, s) == if s in moved then Spelling(b, ALIAS, s) else Spelling(b, PRIMARY, s);
      assert Spelling(a, ALIAS, s) == if s in moved then Spelling(b, PRIMARY, s) else Spelling(b, ALIAS, s);
    }
    hide Suffixes, Said, Conflicted;
  }

  /** Labels that say this, all in the primary spelling. */
  function Primarily(norm: Labels): Labels {
    var keys := set s | s in norm :: PRIMARY + s;
    map k | k in keys && |PRIMARY| <= |k| && k[|PRIMARY|..] in norm :: norm[k[|PRIMARY|..]]
  }

  lemma PrimarilySpells(norm: Labels, s: string)
    ensures Spelling(Primarily(norm), PRIMARY, s) == Lookup(norm, s) && Spelling(Primarily(norm), ALIAS, s) == None
  {
    assert (PRIMARY + s)[|PRIMARY|..] == s;
    assert (ALIAS + s)[0] == 't' && forall r: string :: (PRIMARY + r)[0] == 'a';
  }

  lemma PrimarilyMerges(norm: Labels)
    requires "" !in norm
    ensures Merged(Primarily(norm)) == norm && forall s :: !Conflicted(Primarily(norm), s)
  {
    hide Primarily;
    var labels := Primarily(norm);
    forall s ensures (s in Suffixes(labels) <==> s in norm) && (s in norm ==> Said(labels, s) == norm[s]) && !Conflicted(labels, s) {
      PrimarilySpells(norm, s);
      SuffixIff(labels, s);
    }
    hide Suffixes, Said, Conflicted;
  }
}
