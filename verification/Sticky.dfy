/** Standing errors per slug, and what their timestamps mean over a whole history. */
module Sticky {
  import opened Desired

  /** One finding of a reconcile or an audit. */
  datatype Finding = Finding(severity: Severity, code: string, message: string)

  datatype StickyError = StickyError(service: string, slug: string, code: string, message: string, firstSeen: int, lastSeen: int)

  type Entries = map<string, StickyError>

  /** The codes of the errors; anything milder is not sticky. */
  function Codes(findings: seq<Finding>): set<string> {
    set f | f in findings && f.severity.Error? :: f.code
  }

  /** The message of the last error with this code. */
  function Message(findings: seq<Finding>, code: string): string {
    if findings == [] then ""
    else
      var last := findings[|findings| - 1];
      if last.severity.Error? && last.code == code then last.message else Message(findings[..|findings| - 1], code)
  }

  datatype Change =
    | Replace(slug: string, service: string, findings: seq<Finding>, at: int)
    | Clear(slug: string)
    | Retain(keep: seq<string>)

  function Of(m: map<string, Entries>, slug: string): Entries {
    if slug in m then m[slug] else map[]
  }

  /** The errors of a slug as its last findings leave them: a code that was standing keeps the time
      it was first seen. */
  function Standing(was: Entries, slug: string, service: string, findings: seq<Finding>, at: int): Entries {
    map c | c in Codes(findings) ::
      StickyError(service, slug, c, Message(findings, c), if c in was then was[c].firstSeen else at, at)
  }

  /** The set after one change. A slug with nothing standing is not kept. */
  function Changed(m: map<string, Entries>, c: Change): map<string, Entries> {
    match c
    case Replace(slug, service, findings, at) =>
      if Codes(findings) == {} then m - {slug} else m[slug := Standing(Of(m, slug), slug, service, findings, at)]
    case Clear(slug) => m - {slug}
    case Retain(keep) => map s | s in m && s in keep :: m[s]
  }

  lemma OneMoreFinding(was: Entries, slug: string, service: string, findings: seq<Finding>, i: nat, at: int)
    requires i < |findings|
    ensures var f := findings[i];
            && Codes(findings[..i + 1]) == Codes(findings[..i]) + (if f.severity.Error? then {f.code} else {})
            && Standing(was, slug, service, findings[..i + 1], at)
                 == if f.severity.Error?
                    then Standing(was, slug, service, findings[..i], at)
                           [f.code := StickyError(service, slug, f.code, f.message, if f.code in was then was[f.code].firstSeen else at, at)]
                    else Standing(was, slug, service, findings[..i], at)
  {
    assert findings[..i + 1] == findings[..i] + [findings[i]];
    assert findings[..i + 1][..i] == findings[..i];
  }

  /** The message that stands is that of the last finding with the code. */
  lemma {:induction false} LastMessageStands(findings: seq<Finding>, code: string)
    requires code in Codes(findings)
    ensures exists i :: 0 <= i < |findings| && findings[i].severity.Error? && findings[i].code == code && findings[i].message == Message(findings, code)
              && forall j | i < j < |findings| :: !(findings[j].severity.Error? && findings[j].code == code)
  {
    var last := findings[|findings| - 1];
    if !(last.severity.Error? && last.code == code) {
      var before := findings[..|findings| - 1];
      assert findings == before + [last];
      LastMessageStands(before, code);
      var i :| 0 <= i < |before| && before[i].severity.Error? && before[i].code == code && before[i].message == Message(before, code)
               && forall j | i < j < |before| :: !(before[j].severity.Error? && before[j].code == code);
      assert findings[i] == before[i];
      assert forall j | i < j < |before| :: findings[j] == before[j];
    }
  }

  class StickySet {
    var bySlug: map<string, Entries>

    constructor ()
      ensures bySlug == map[]
    {
      bySlug := map[];
    }

    /** Makes the errors among `findings` the standing set of the slug. `added` holds one entry for
        each error whose code was not standing before. */
    method ReplaceSlug(slug: string, service: string, findings: seq<Finding>, now: int) returns (added: seq<StickyError>)
      modifies this
      ensures bySlug == Changed(old(bySlug), Replace(slug, service, findings, now))
      ensures forall c :: (exists e :: e in added && e.code == c) <==> c in Codes(findings) && c !in Of(old(bySlug), slug)
      ensures forall e | e in added :: e.slug == slug && e.service == service && e.firstSeen == e.lastSeen == now
    {
      hide Standing, Codes;
      var was: Entries := if slug in bySlug then bySlug[slug] else map[];
      var next: Entries := map[];
      added := [];
      assert findings[..0] == [];
      NoFindings(was, slug, service, now);
      for i := 0 to |findings|
        invariant bySlug == old(bySlug) && next == Standing(was, slug, service, findings[..i], now)
        invariant forall c :: (exists e :: e in added && e.code == c) <==> c in Codes(findings[..i]) && c !in was
        invariant forall e | e in added :: e.slug == slug && e.service == service && e.firstSeen == e.lastSeen == now
      {
        OneMoreFinding(was, slug, service, findings, i, now);
        var f := findings[i];
        if f.severity.Error? {
          var e := StickyError(service, slug, f.code, f.message, now, now);
          if f.code in was {
            e := e.(firstSeen := was[f.code].firstSeen);
          } else {
            ghost var before := added;
            added := added + [e];
            assert e in added && forall x | x in before :: x in added;
          }
          next := next[f.code := e];
        }
      }
      assert findings[..|findings|] == findings;
      EmptyMeans(was, slug, service, findings, now);
      bySlug := if next == map[] then bySlug - {slug} else bySlug[slug := next];
    }

    method ClearSlug(slug: string)
      modifies this
      ensures bySlug == Changed(old(bySlug), Clear(slug))
    {
      bySlug := bySlug - {slug};
    }

    /** Drops every slug that is not kept. */
    method RetainSlugs(keep: seq<string>)
      modifies this
      ensures bySlug == Changed(old(bySlug), Retain(keep))
    {
      var rest := bySlug.Keys;
      ghost var was := bySlug;
      while rest != {}
        invariant rest <= was.Keys
        invariant bySlug == map s | s in was && (s in rest || s in keep) :: was[s]
      {
        var slug :| slug in rest;
        rest := rest - {slug};
        if slug !in keep {
          bySlug := bySlug - {slug};
        }
      }
    }
  }

  lemma NoFindings(was: Entries, slug: string, service: string, at: int)
    ensures Codes([]) == {} && Standing(was, slug, service, [], at) == map[]
  {
  }

  lemma EmptyMeans(was: Entries, slug: string, service: string, findings: seq<Finding>, at: int)
    ensures Standing(was, slug, service, findings, at) == map[] <==> Codes(findings) == {}
  {
    assert Standing(was, slug, service, findings, at).Keys == Codes(findings);
  }

  // Histories.

  function After(history: seq<Change>): map<string, Entries> {
    if history == [] then map[] else Changed(After(history[..|history| - 1]), history[|history| - 1])
  }

  /** The change reports the code as an error of the slug. */
  predicate Raises(c: Change, slug: string, code: string) {
    c.Replace? && c.slug == slug && code in Codes(c.findings)
  }

  /** The change ends whatever streak the code is on. */
  predicate Ends(c: Change, slug: string, code: string) {
    match c
    case Replace(s, _, findings, _) => s == slug && code !in Codes(findings)
    case Clear(s) => s == slug
    case Retain(keep) => slug !in keep
  }

  /** Raised at `i` and not ended since. */
  ghost predicate Unbroken(history: seq<Change>, i: nat, slug: string, code: string) {
    && i < |history| && Raises(history[i], slug, code)
    && forall j | i < j < |history| :: !Ends(history[j], slug, code)
  }

  ghost predicate OnAStreak(history: seq<Change>, slug: string, code: string) {
    exists i: nat :: Unbroken(history, i, slug, code)
  }

  /** The change with which the current streak began. */
  ghost predicate Began(history: seq<Change>, i: nat, slug: string, code: string) {
    Unbroken(history, i, slug, code) && !OnAStreak(history[..i], slug, code)
  }

  lemma StreakGoesOn(history: seq<Change>, c: Change, i: nat, slug: string, code: string)
    requires i < |history|
    ensures Unbroken(history + [c], i, slug, code) <==> Unbroken(history, i, slug, code) && !Ends(c, slug, code)
    ensures Began(history + [c], i, slug, code) <==> Began(history, i, slug, code) && !Ends(c, slug, code)
  {
    var longer := history + [c];
    assert longer[..i] == history[..i];
    assert forall j | 0 <= j < |history| :: longer[j] == history[j];
    assert longer[|history|] == c;
  }

  /** One change on: a streak goes on unless it is ended, and begins when it is raised anew. */
  lemma StreakOneMore(history: seq<Change>, c: Change, slug: string, code: string)
    ensures OnAStreak(history + [c], slug, code) <==> Raises(c, slug, code) || (OnAStreak(history, slug, code) && !Ends(c, slug, code))
    ensures Began(history + [c], |history|, slug, code) <==> Raises(c, slug, code) && !OnAStreak(history, slug, code)
  {
    var longer := history + [c];
    assert longer[..|history|] == history;
    if i: nat :| Unbroken(longer, i, slug, code) && i < |history| {
      StreakGoesOn(history, c, i, slug, code);
    }
    if i: nat :| Unbroken(history, i, slug, code) {
      StreakGoesOn(history, c, i, slug, code);
    }
    assert Raises(c, slug, code) ==> Unbroken(longer, |history|, slug, code);
  }

  /** Over every history: what stands is what is on a streak, first seen when the streak began. */
  lemma {:induction false} FirstSeenIsTheBeginning(history: seq<Change>, slug: string, code: string)
    ensures code in Of(After(history), slug) <==> OnAStreak(history, slug, code)
    ensures forall i: nat | Began(history, i, slug, code) ::
              code in Of(After(history), slug) && history[i].Replace? && Of(After(history), slug)[code].firstSeen == history[i].at
    ensures OnAStreak(history, slug, code) ==> exists i: nat :: Began(history, i, slug, code)
  {
    if history != [] {
      var before, c := history[..|history| - 1], history[|history| - 1];
      assert history == before + [c];
      FirstSeenIsTheBeginning(before, slug, code);
      StreakOneMore(before, c, slug, code);
      forall i: nat | i < |before|
        ensures Began(history, i, slug, code) <==> Began(before, i, slug, code) && !Ends(c, slug, code)
      {
        StreakGoesOn(before, c, i, slug, code);
      }
      if OnAStreak(history, slug, code) && OnAStreak(before, slug, code) {
        var i: nat :| Began(before, i, slug, code);
        assert Began(history, i, slug, code);
      }
      OneStep(After(before), c, slug, code);
      hide Unbroken, OnAStreak, Raises, Ends, Changed;
      if i: nat :| Began(history, i, slug, code) && i == |before| {
        assert history[i] == c;
      }
    }
  }

  lemma OneStep(m: map<string, Entries>, c: Change, slug: string, code: string)
    ensures code in Of(Changed(m, c), slug) <==> Raises(c, slug, code) || (code in Of(m, slug) && !Ends(c, slug, code))
    ensures code in Of(Changed(m, c), slug) ==>
              Of(Changed(m, c), slug)[code].firstSeen == if code in Of(m, slug) then Of(m, slug)[code].firstSeen else c.at
  {
  }

  /** An alert is sent exactly when a streak begins. */
  lemma AddedWhenAStreakBegins(history: seq<Change>, slug: string, service: string, findings: seq<Finding>, now: int, code: string)
    ensures Began(history + [Replace(slug, service, findings, now)], |history|, slug, code) <==>
              code in Codes(findings) && code !in Of(After(history), slug)
  {
    FirstSeenIsTheBeginning(history, slug, code);
    StreakOneMore(history, Replace(slug, service, findings, now), slug, code);
  }

  /** After a retention only enabled slugs have standing errors, whatever came before. */
  lemma OnlyEnabledStand(history: seq<Change>, keep: seq<string>)
    ensures forall s | s in After(history + [Retain(keep)]) :: s in keep && After(history + [Retain(keep)])[s] != map[]
  {
    NoneEmpty(history);
    assert (history + [Retain(keep)])[..|history|] == history;
  }

  lemma {:induction false} NoneEmpty(history: seq<Change>)
    ensures forall s | s in After(history) :: After(history)[s] != map[]
  {
    if history != [] {
      var before, c := history[..|history| - 1], history[|history| - 1];
      NoneEmpty(before);
      if c.Replace? {
        EmptyMeans(Of(After(before), c.slug), c.slug, c.service, c.findings, c.at);
      }
    }
  }
}
