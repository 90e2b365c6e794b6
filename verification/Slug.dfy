/** Slugs: what an explicit one must look like, and how one is derived from a service name. */
module Slug {
  predicate IsLetterOrDigit(c: char) {
    'a' <= c <= 'z' || '0' <= c <= '9'
  }

  predicate IsSlugChar(c: char) {
    IsLetterOrDigit(c) || c == '-'
  }

  predicate IsValidSlug(s: string) {
    s != "" && forall c | c in s :: IsSlugChar(c)
  }

  /** Lower case, as far as it can matter: these are all characters with a lower-case form among
      the ASCII letters, the dotted capital I and the Kelvin sign included. */
  function Lower(c: char): char {
    if 'A' <= c <= 'Z' then (c as int + 32) as char else if c == '\U{130}' then 'i' else if c == '\U{212A}' then 'k' else c
  }

  /** The runs of letters and digits, in lower case. */
  function Words(s: string): seq<string> {
    if s == "" then []
    else
      var before, c := s[..|s| - 1], Lower(s[|s| - 1]);
      var ws := Words(before);
      if !IsLetterOrDigit(c) then ws
      else if InWord(before) && ws != [] then ws[..|ws| - 1] + [ws[|ws| - 1] + [c]]
      else ws + [[c]]
  }

  /** The string ends inside a word. */
  predicate InWord(s: string) {
    s != "" && IsLetterOrDigit(Lower(s[|s| - 1]))
  }

  function Hyphenated(ws: seq<string>): string {
    if ws == [] then "" else if |ws| == 1 then ws[0] else Hyphenated(ws[..|ws| - 1]) + "-" + ws[|ws| - 1]
  }

  /** The derived slug: the words of the name, joined by single hyphens. */
  function Derived(name: string): string {
    Hyphenated(Words(name))
  }

  predicate IsWord(w: string) {
    w != "" && forall c | c in w :: IsLetterOrDigit(c)
  }

  lemma {:induction false} WordsAreWords(s: string)
    ensures forall w | w in Words(s) :: IsWord(w)
    ensures InWord(s) ==> Words(s) != []
  {
    if s != "" {
      var before := s[..|s| - 1];
      WordsAreWords(before);
      var ws := Words(before);
      if InWord(before) {
        assert ws[|ws| - 1] in ws;
      }
    }
  }

  lemma LastWordGrows(ws: seq<string>, c: char)
    requires ws != []
    ensures Hyphenated(ws[..|ws| - 1] + [ws[|ws| - 1] + [c]]) == Hyphenated(ws) + [c]
  {
    var longer := ws[..|ws| - 1] + [ws[|ws| - 1] + [c]];
    assert longer[..|longer| - 1] == ws[..|ws| - 1];
  }

  lemma OneMoreWord(ws: seq<string>, w: string)
    ensures Hyphenated(ws + [w]) == (if ws == [] then "" else Hyphenated(ws) + "-") + w
  {
    assert (ws + [w])[..|ws|] == ws;
  }

  lemma {:induction false} EndsInWord(ws: seq<string>)
    requires ws != [] && forall w | w in ws :: IsWord(w)
    ensures Hyphenated(ws) != "" && IsLetterOrDigit(Hyphenated(ws)[0]) && IsLetterOrDigit(Hyphenated(ws)[|Hyphenated(ws)| - 1])
  {
    var last := ws[|ws| - 1];
    assert last in ws && ws[0] in ws && last[|last| - 1] in last && last[0] in last;
    if |ws| > 1 {
      EndsInWord(ws[..|ws| - 1]);
    }
  }

  /** Derives a slug, one character at a time. */
  method SanitizeSlug(name: string) returns (slug: string)
    ensures slug == Derived(name)
  {
    hide Words, Hyphenated;
    slug := "";
    var lastHyphen := false;
    NoWords();
    for i := 0 to |name|
      invariant slug == Derived(name[..i]) + if lastHyphen then "-" else ""
      invariant lastHyphen <==> Words(name[..i]) != [] && !InWord(name[..i])
    {
      WordsOneMore(name, i);
      var c := Lower(name[i]);
      if IsLetterOrDigit(c) {
        slug := slug + [c];
        lastHyphen := false;
      } else if !lastHyphen && |slug| > 0 {
        slug := slug + "-";
        lastHyphen := true;
      }
    }
    assert name[..|name|] == name;
    if lastHyphen {
      slug := slug[..|slug| - 1];
    }
  }

  lemma NoWords()
    ensures Words("") == [] && Hyphenated([]) == ""
  {
  }

  /** One character more: it continues the last word, starts one, or ends one. */
  lemma WordsOneMore(name: string, i: nat)
    requires i < |name|
    ensures var c, longer := Lower(name[i]), name[..i + 1];
            && (InWord(longer) <==> IsLetterOrDigit(c))
            && (Derived(name[..i]) == "" <==> Words(name[..i]) == [])
            && (InWord(name[..i]) ==> Words(name[..i]) != [])
            && if !IsLetterOrDigit(c) then Words(longer) == Words(name[..i])
               else Words(longer) != [] && Derived(longer) ==
                      if Words(name[..i]) == [] then [c] else Derived(name[..i]) + (if InWord(name[..i]) then [c] else ['-', c])
  {
    var before, longer := name[..i], name[..i + 1];
    var c, ws := Lower(name[i]), Words(name[..i]);
    assert longer[..i] == before;
    WordsAreWords(before);
    if ws != [] {
      EndsInWord(ws);
      LastWordGrows(ws, c);
    }
    OneMoreWord(ws, [c]);
  }

  /** Only slug characters, no hyphen at either end, no two hyphens in a row. */
  ghost predicate Canonical(s: string) {
    && IsValidSlug(s) && s[0] != '-' && s[|s| - 1] != '-'
    && forall i | 0 < i < |s| :: s[i] != '-' || s[i - 1] != '-'
  }

  lemma {:induction false} HyphenatedIsCanonical(ws: seq<string>)
    requires ws != [] && forall w | w in ws :: IsWord(w)
    ensures Canonical(Hyphenated(ws))
  {
    var last := ws[|ws| - 1];
    assert last in ws;
    EndsInWord(ws);
    assert forall i | 0 <= i < |last| :: last[i] in last;
    if |ws| > 1 {
      HyphenatedIsCanonical(ws[..|ws| - 1]);
      EndsInWord(ws[..|ws| - 1]);
    }
  }

  /** A derived slug is empty or canonical. */
  lemma DerivedIsCanonical(name: string)
    ensures Derived(name) == "" || Canonical(Derived(name))
  {
    WordsAreWords(name);
    if Words(name) != [] {
      HyphenatedIsCanonical(Words(name));
    }
  }

  /** A word is one word. */
  lemma {:induction false} WordByWord(s: string, w: string)
    requires IsWord(w) && !InWord(s)
    ensures Words(s + w) == Words(s) + [w] && InWord(s + w)
  {
    var c := w[|w| - 1];
    assert c in w && Lower(c) == c;
    assert (s + w)[..|s + w| - 1] == s + w[..|w| - 1];
    if |w| == 1 {
      assert w == [c] && s + w[..0] == s;
    } else {
      assert forall d | d in w[..|w| - 1] :: d in w;
      WordByWord(s, w[..|w| - 1]);
      assert w == w[..|w| - 1] + [c];
    }
  }

  lemma {:induction false} WordsOfHyphenated(ws: seq<string>)
    requires forall w | w in ws :: IsWord(w)
    ensures Words(Hyphenated(ws)) == ws && (ws != [] ==> InWord(Hyphenated(ws)))
  {
    if ws != [] {
      var before, last := ws[..|ws| - 1], ws[|ws| - 1];
      assert last in ws && ws == before + [last];
      if before == [] {
        WordByWord("", last);
        assert "" + last == last;
      } else {
        WordsOfHyphenated(before);
        var head := Hyphenated(before) + "-";
        assert head[..|head| - 1] == Hyphenated(before) && Lower('-') == '-';
        WordByWord(head, last);
      }
    }
  }

  /** Deriving again changes nothing. */
  lemma DerivedIsFixed(name: string)
    ensures Derived(Derived(name)) == Derived(name)
  {
    WordsAreWords(name);
    WordsOfHyphenated(Words(name));
  }

  // Letter by letter.

  /** A letter or a digit, in either case. */
  predicate IsPlain(c: char) {
    'a' <= c <= 'z' || 'A' <= c <= 'Z' || '0' <= c <= '9'
  }

  /** The character in lower case, the letters being matched by their places in the alphabet. */
  ghost predicate IsLowerOf(c: char, lower: char) {
    if 'A' <= c <= 'Z' then 'a' <= lower <= 'z' && lower as int - 'a' as int == c as int - 'A' as int else lower == c
  }

  /** A word of plain letters and digits survives whole, each letter in lower case. */
  lemma {:induction false} WordIsLowered(w: string)
    requires forall i | 0 <= i < |w| :: IsPlain(w[i])
    ensures |Derived(w)| == |w| && forall i | 0 <= i < |w| :: IsLowerOf(w[i], Derived(w)[i])
  {
    if w != "" {
      var before := w[..|w| - 1];
      WordIsLowered(before);
      WordsOneMore(w, |w| - 1);
      assert w[..|w|] == w && before != "" ==> InWord(before);
      hide Words, Hyphenated;
      assert before == "" ==> Words(before) == [] by { NoWords(); }
    }
  }

  /** Any other character, of those that are not a letter in some other case, parts what stands before it from what
      stands behind it, with one hyphen between the two if neither is empty. */
  lemma DerivedInParts(s: string, c: char, t: string)
    requires !IsPlain(c) && c !in {'\U{130}', '\U{212A}'}
    ensures Derived(s + [c] + t) ==
              if Derived(s) == "" then Derived(t) else if Derived(t) == "" then Derived(s) else Derived(s) + "-" + Derived(t)
  {
    WordsInParts(s, c, t);
    WordsAreWords(s);
    WordsAreWords(t);
    HyphenatedInParts(Words(s), Words(t));
    if Words(s) != [] {
      EndsInWord(Words(s));
    }
    if Words(t) != [] {
      EndsInWord(Words(t));
    }
  }

  lemma {:induction false} WordsInParts(s: string, c: char, t: string)
    requires !IsLetterOrDigit(Lower(c))
    ensures Words(s + [c] + t) == Words(s) + Words(t) && (t != "" ==> (InWord(s + [c] + t) <==> InWord(t)))
  {
    var all := s + [c] + t;
    if t == "" {
      assert all[..|all| - 1] == s;
      OneCharacter(all);
    } else {
      var front := t[..|t| - 1];
      WordsInParts(s, c, front);
      WordsAreWords(front);
      NoWordBehind(s, c, front);
      assert all[..|all| - 1] == s + [c] + front && all[|all| - 1] == t[|t| - 1];
      OneCharacter(all);
      OneCharacter(t);
      hide Words, IsLetterOrDigit, Lower, InWord;
      LastOfBoth(Words(s), Words(front), Lower(t[|t| - 1]));
    }
  }

  lemma NoWordBehind(s: string, c: char, t: string)
    requires !IsLetterOrDigit(Lower(c)) && (t != "" ==> (InWord(s + [c] + t) <==> InWord(t)))
    ensures InWord(s + [c] + t) <==> InWord(t)
  {
    assert t == "" ==> s + [c] + t == s + [c];
  }

  lemma LastOfBoth(a: seq<string>, b: seq<string>, c: char)
    ensures b != [] ==> (a + b)[..|a + b| - 1] + [(a + b)[|a + b| - 1] + [c]] == a + (b[..|b| - 1] + [b[|b| - 1] + [c]])
    ensures (a + b) + [[c]] == a + (b + [[c]])
  {
    if b != [] {
      assert (a + b)[..|a + b| - 1] == a + b[..|b| - 1];
    }
  }

  lemma OneCharacter(s: string)
    requires s != ""
    ensures var before, c := s[..|s| - 1], Lower(s[|s| - 1]);
            && (InWord(s) <==> IsLetterOrDigit(c))
            && Words(s) == if !IsLetterOrDigit(c) then Words(before)
                           else if InWord(before) && Words(before) != []
                           then Words(before)[..|Words(before)| - 1] + [Words(before)[|Words(before)| - 1] + [c]]
                           else Words(before) + [[c]]
  {
  }

  lemma {:induction false} HyphenatedInParts(a: seq<string>, b: seq<string>)
    ensures Hyphenated(a + b) == if a == [] then Hyphenated(b) else if b == [] then Hyphenated(a) else Hyphenated(a) + "-" + Hyphenated(b)
  {
    if b == [] {
      assert a + b == a;
    } else if a == [] {
      assert a + b == b;
    } else {
      var front := b[..|b| - 1];
      assert (a + b)[..|a + b| - 1] == a + front;
      HyphenatedInParts(a, front);
    }
  }
}
