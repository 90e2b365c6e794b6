/** Two workers: the attach step cut into its requests, and what becomes of it when two of them
    interleave. */
module Race {
  import opened Authentik
  import opened Desired
  import opened Law

  /** How far an attach has come: nothing read, the list read, the list written back, confirmed or
      sent again. */
  datatype Progress = Fresh | Holding(snapshot: seq<nat>) | Sent(snapshot: seq<nat>) | Over(snapshot: seq<nat>)

  datatype Attach = Attach(pk: nat, stage: Progress)

  /** The next request or two of an attach: read the list, send it with the provider unless it is on
      it, and send it again if the host is not served. */
  function Advance(list: seq<nat>, p: Attach, serves: bool): (seq<nat>, Attach) {
    match p.stage
    case Fresh => (list, p.(stage := Holding(list)))
    case Holding(s) => (if p.pk in s then list else s + [p.pk], p.(stage := Sent(s)))
    case Sent(s) => (if serves then list else With(s, p.pk), p.(stage := Over(s)))
    case Over(_) => (list, p)
  }

  predicate Sends(p: Attach, serves: bool) {
    (p.stage.Holding? && p.pk !in p.stage.snapshot) || (p.stage.Sent? && !serves)
  }

  /** It has written the list, or found the provider on it. */
  predicate Attached(p: Attach) {
    p.stage.Sent? || p.stage.Over?
  }

  datatype Writer = Nobody | First | Second

  /** Two attaches on one list, with who wrote last and who read after the other had attached. */
  datatype Both = Both(list: seq<nat>, a: Attach, b: Attach, last: Writer, aSawB: bool, bSawA: bool)

  function Begin(list: seq<nat>, a: nat, b: nat): Both {
    Both(list, Attach(a, Fresh), Attach(b, Fresh), Nobody, false, false)
  }

  function Turn(r: Both, first: bool, serves: bool): Both {
    if first then
      var (list, a) := Advance(r.list, r.a, serves);
      r.(list := list, a := a, last := if Sends(r.a, serves) then First else r.last,
         aSawB := if r.a.stage.Fresh? then Attached(r.b) else r.aSawB)
    else
      var (list, b) := Advance(r.list, r.b, serves);
      r.(list := list, b := b, last := if Sends(r.b, serves) then Second else r.last,
         bSawA := if r.b.stage.Fresh? then Attached(r.a) else r.bSawA)
  }

  /** `schedule` says whose turn it is, true for the first, and whether that one's host is served then. */
  function Run(r: Both, schedule: seq<(bool, bool)>): Both {
    if schedule == [] then r else
      var (first, serves) := schedule[|schedule| - 1];
      Turn(Run(r, schedule[..|schedule| - 1]), first, serves)
  }

  /** What a snapshot holds: the list as it was, and the other provider if that was attached by then. */
  ghost predicate Snapped(p: Attach, list: seq<nat>, other: nat, saw: bool) {
    !p.stage.Fresh? ==> p.stage.snapshot == if saw then With(list, other) else list
  }

  ghost predicate Racing(list: seq<nat>, r: Both) {
    && Snapped(r.a, list, r.b.pk, r.aSawB) && Snapped(r.b, list, r.a.pk, r.bSawA)
    && (r.aSawB ==> !r.a.stage.Fresh? && Attached(r.b) && !r.bSawA) && (r.bSawA ==> !r.b.stage.Fresh? && Attached(r.a) && !r.aSawB)
    && (r.last.First? ==> Attached(r.a)) && (r.last.Second? ==> Attached(r.b))
    && r.list == (match r.last
                  case Nobody => list
                  case First => With(r.a.stage.snapshot, r.a.pk)
                  case Second => With(r.b.stage.snapshot, r.b.pk))
    && (Attached(r.a) && r.a.pk !in r.a.stage.snapshot ==> !r.last.Nobody?)
    && (Attached(r.b) && r.b.pk !in r.b.stage.snapshot ==> !r.last.Nobody?)
    && (Attached(r.a) && !Attached(r.b) ==> !r.last.Second?) && (Attached(r.b) && !Attached(r.a) ==> !r.last.First?)
  }

  lemma RacingTurn(list: seq<nat>, r: Both, first: bool, serves: bool)
    requires Racing(list, r)
    ensures Racing(list, Turn(r, first, serves))
  {
  }

  lemma {:induction false} RacingAlways(list: seq<nat>, a: nat, b: nat, schedule: seq<(bool, bool)>)
    ensures var r := Run(Begin(list, a, b), schedule);
            Racing(list, r) && r.a.pk == a && r.b.pk == b
  {
    if schedule != [] {
      var before := schedule[..|schedule| - 1];
      var (first, serves) := schedule[|schedule| - 1];
      RacingAlways(list, a, b, before);
      RacingTurn(list, Run(Begin(list, a, b), before), first, serves);
    }
  }

  /** The first provider was new and is not the second's, the second read before the first attached,
      and the second wrote last. */
  predicate FirstIsLost(list: seq<nat>, r: Both) {
    r.a.pk !in list && r.a.pk != r.b.pk && !r.bSawA && r.last.Second?
  }

  predicate SecondIsLost(list: seq<nat>, r: Both) {
    r.b.pk !in list && r.a.pk != r.b.pk && !r.aSawB && r.last.First?
  }

  /** Over every interleaving of two attaches, whichever of the hosts is served at whichever moment: one
      that has attached is off the list exactly when it is lost in this sense, and nothing that was on
      the list before is ever lost. */
  lemma LostExactlyWhen(list: seq<nat>, a: nat, b: nat, schedule: seq<(bool, bool)>)
    ensures var r := Run(Begin(list, a, b), schedule);
            && list <= r.list
            && (Attached(r.a) ==> (a !in r.list <==> FirstIsLost(list, r)))
            && (Attached(r.b) ==> (b !in r.list <==> SecondIsLost(list, r)))
  {
    RacingAlways(list, a, b, schedule);
  }

  lemma RunOne(r: Both, schedule: seq<(bool, bool)>, turn: (bool, bool))
    ensures Run(r, schedule + [turn]) == Turn(Run(r, schedule), turn.0, turn.1)
  {
    assert (schedule + [turn])[..|schedule|] == schedule;
  }

  lemma Alone(r: Both, schedule: seq<(bool, bool)>, first: bool, x: bool, y: bool, z: bool)
    ensures Run(r, schedule + [(first, x), (first, y), (first, z)]) == Turn(Turn(Turn(Run(r, schedule), first, x), first, y), first, z)
  {
    hide Turn, Run;
    var one, two := schedule + [(first, x)], schedule + [(first, x), (first, y)];
    RunOne(r, schedule, (first, x));
    RunOne(r, one, (first, y));
    RunOne(r, two, (first, z));
    assert one + [(first, y)] == two;
    assert two + [(first, z)] == schedule + [(first, x), (first, y), (first, z)];
  }

  /** One after the other, both are listed, whatever the probes say. */
  lemma SerialLosesNothing(list: seq<nat>, a: nat, b: nat, first: seq<bool>, second: seq<bool>)
    requires |first| == 3 && |second| == 3
    ensures Run(Begin(list, a, b), [(true, first[0]), (true, first[1]), (true, first[2]), (false, second[0]), (false, second[1]), (false, second[2])]).list
            == With(With(list, a), b)
  {
    var s := [(true, first[0]), (true, first[1]), (true, first[2])];
    Alone(Begin(list, a, b), [], true, first[0], first[1], first[2]);
    Alone(Begin(list, a, b), s, false, second[0], second[1], second[2]);
    assert [] + s == s;
    assert s + [(false, second[0]), (false, second[1]), (false, second[2])] ==
           [(true, first[0]), (true, first[1]), (true, first[2]), (false, second[0]), (false, second[1]), (false, second[2])];
    NothingRun(Begin(list, a, b));
  }

  lemma NothingRun(r: Both)
    ensures Run(r, []) == r
  {
  }

  // Against the server.

  /** A worker that is attaching one provider. */
  class Attacher {
    const pk: nat
    var stage: Progress

    constructor (pk: nat)
      ensures this.pk == pk && stage == Fresh
    {
      this.pk, stage := pk, Fresh;
    }

    function View(): Attach
      reads this
    {
      Attach(pk, stage)
    }

    /** Its next step against outpost `o`. */
    method Step(api: Server, o: nat, host: string)
      requires api.Valid() && o < |api.tables.outposts| && Calm(api.env, api.calls) && host != ""
      modifies this`stage, api`tables, api`calls, api`trace
      ensures api.Valid() && old(api.trace) <= api.trace && api.calls >= old(api.calls)
      ensures o < |api.tables.outposts| && api.tables == WithList(old(api.tables), o, api.tables.outposts[o].providers)
      ensures (api.tables.outposts[o].providers, View()) == Advance(old(api.tables.outposts[o].providers), old(View()), api.env.serves(host, api.clock))
      ensures api.tables != old(api.tables) ==> |old(api.trace)| < |api.trace| && api.trace[|api.trace| - 1].after == api.tables
    {
      hide WellFormed;
      SameList(api.tables, o);
      match stage {
        case Fresh =>
          var read := api.Fetch(api.tables.outposts[o].providers);
          stage := Holding(read.value);
        case Holding(s) =>
          if pk !in s {
            var _ := api.Commit(PatchOutpost(o, s + [pk]));
          }
          stage := Sent(s);
        case Sent(s) =>
          var serves := api.Probe(host);
          if !serves.value {
            var _ := api.Commit(PatchOutpost(o, With(s, pk)));
          }
          stage := Over(s);
        case Over(_) =>
      }
    }
  }

  function WithList(t: Tables, o: nat, list: seq<nat>): Tables
    requires o < |t.outposts|
  {
    t.(outposts := t.outposts[o := t.outposts[o].(providers := list)])
  }

  lemma SameList(t: Tables, o: nat)
    requires o < |t.outposts|
    ensures WithList(t, o, t.outposts[o].providers) == t
  {
    assert t.outposts[o := t.outposts[o]] == t.outposts;
  }

  lemma ListTwice(t: Tables, o: nat, l: seq<nat>, m: seq<nat>)
    requires o < |t.outposts|
    ensures var one := WithList(t, o, l);
            o < |one.outposts| && one.outposts[o].providers == l && WithList(one, o, m) == WithList(t, o, m)
  {
  }

  /** An attach that runs alone does what the reconcile's own attach step does. */
  method AttachAlone(api: Server, o: nat, pk: nat, host: string)
    requires api.Valid() && o < |api.tables.outposts| && Calm(api.env, api.calls) && host != ""
    modifies api`tables, api`calls, api`trace
    ensures api.Valid() && api.tables == Listed(old(api.tables), o, pk)
  {
    hide WellFormed;
    ghost var t0 := api.tables;
    SameList(t0, o);
    var worker := new Attacher(pk);
    worker.Step(api, o, host);
    worker.Step(api, o, host);
    worker.Step(api, o, host);
    ListTwice(t0, o, t0.outposts[o].providers, With(t0.outposts[o].providers, pk));
  }

  /** Some recorded state has the provider on the list. */
  ghost predicate WasListed(trace: seq<Entry>, n: nat, o: nat, pk: nat) {
    exists i :: n <= i < |trace| && o < |trace[i].after.outposts| && pk in trace[i].after.outposts[o].providers
  }

  lemma StillListed(before: seq<Entry>, trace: seq<Entry>, n: nat, o: nat, pk: nat)
    requires before <= trace && WasListed(before, n, o, pk)
    ensures WasListed(trace, n, o, pk)
  {
    var i :| n <= i < |before| && o < |before[i].after.outposts| && pk in before[i].after.outposts[o].providers;
    assert trace[i] == before[i];
  }

  lemma LosingShrinks(trace: seq<Entry>, n: nat, o: nat, pk: nat, now: Tables)
    requires n <= |trace| && WasListed(trace, n, o, pk) && o < |now.outposts| && pk !in now.outposts[o].providers
    ensures !OnlyGrows(trace, n, now)
  {
    var i :| n <= i < |trace| && o < |trace[i].after.outposts| && pk in trace[i].after.outposts[o].providers;
    assert !ListsGrow(trace[i].after, now);
  }

  /** A new provider comes onto the list with its own attach, and the list changes when it does. */
  lemma ComesWithItsAttach(list: seq<nat>, r: Both, first: bool, serves: bool)
    requires Racing(list, r) && r.a.pk != r.b.pk
    ensures var next := Turn(r, first, serves);
            && (r.a.pk !in list && Attached(next.a) && !Attached(r.a) ==> r.a.pk in next.list && r.a.pk !in r.list)
            && (r.b.pk !in list && Attached(next.b) && !Attached(r.b) ==> r.b.pk in next.list && r.b.pk !in r.list)
  {
  }

  /** What the trace owes to the race: whoever is new and has attached was on the list at some time. */
  ghost predicate Recorded(list: seq<nat>, r: Both, trace: seq<Entry>, n: nat, o: nat) {
    r.a.pk != r.b.pk ==>
      && (r.a.pk !in list && Attached(r.a) ==> WasListed(trace, n, o, r.a.pk))
      && (r.b.pk !in list && Attached(r.b) ==> WasListed(trace, n, o, r.b.pk))
  }

  lemma RecordedTurn(list: seq<nat>, r: Both, first: bool, serves: bool, before: seq<Entry>, trace: seq<Entry>, n: nat, o: nat, was: Tables, now: Tables)
    requires Racing(list, r) && Recorded(list, r, before, n, o) && before <= trace && n <= |before|
    requires o < |was.outposts| && o < |now.outposts|
    requires was.outposts[o].providers == r.list && now.outposts[o].providers == Turn(r, first, serves).list
    requires now != was ==> |before| < |trace| && trace[|trace| - 1].after == now
    ensures Recorded(list, Turn(r, first, serves), trace, n, o)
  {
    if r.a.pk != r.b.pk {
      ComesWithItsAttach(list, r, first, serves);
      var next := Turn(r, first, serves);
      assert next.a.pk == r.a.pk && next.b.pk == r.b.pk;
      assert (Attached(r.a) ==> Attached(next.a)) && (Attached(r.b) ==> Attached(next.b));
      hide Turn, Racing, Attached;
      forall pk | WasListed(before, n, o, pk) ensures WasListed(trace, n, o, pk) {
        StillListed(before, trace, n, o, pk);
      }
    }
  }

  /** Where the clock stands after `i` turns. */
  function ClockAt(clock: nat, schedule: seq<(bool, nat)>, i: nat): nat
    requires i <= |schedule|
  {
    if i == 0 then clock else ClockAt(clock, schedule, i - 1) + schedule[i - 1].1
  }

  /** Each turn as scheduled, and whether the host of the worker whose turn it is was served then. */
  ghost predicate Answered(env: Env, hostA: string, hostB: string, clock: nat, schedule: seq<(bool, nat)>, turns: seq<(bool, bool)>) {
    && |turns| <= |schedule|
    && forall i | 0 <= i < |turns| :: turns[i].0 == schedule[i].0
         && turns[i].1 == env.serves(if schedule[i].0 then hostA else hostB, ClockAt(clock, schedule, i + 1))
  }

  lemma OneMoreAnswered(env: Env, hostA: string, hostB: string, clock: nat, schedule: seq<(bool, nat)>, turns: seq<(bool, bool)>, serves: bool)
    requires Answered(env, hostA, hostB, clock, schedule, turns) && |turns| < |schedule|
    requires serves == env.serves(if schedule[|turns|].0 then hostA else hostB, ClockAt(clock, schedule, |turns| + 1))
    ensures Answered(env, hostA, hostB, clock, schedule, turns + [(schedule[|turns|].0, serves)])
  {
  }

  lemma NothingAnswered(env: Env, hostA: string, hostB: string, clock: nat, schedule: seq<(bool, nat)>)
    ensures Answered(env, hostA, hostB, clock, schedule, [])
  {
  }

  /** One turn of the race. */
  method TakeTurn(api: Server, one: Attacher, two: Attacher, ghost r: Both, first: bool, o: nat, host: string)
    requires one != two && r.a == one.View() && r.b == two.View()
    requires api.Valid() && o < |api.tables.outposts| && Calm(api.env, api.calls) && host != "" && api.tables.outposts[o].providers == r.list
    modifies one`stage, two`stage, api`tables, api`calls, api`trace
    ensures api.Valid() && old(api.trace) <= api.trace && Calm(api.env, api.calls)
    ensures var next := Turn(r, first, api.env.serves(host, api.clock));
            next.a == one.View() && next.b == two.View() && api.tables == WithList(old(api.tables), o, next.list)
    ensures api.tables != old(api.tables) ==> |old(api.trace)| < |api.trace| && api.trace[|api.trace| - 1].after == api.tables
  {
    hide WellFormed, Advance, Turn;
    TurnMeans(r, first, api.env.serves(host, api.clock));
    if first {
      one.Step(api, o, host);
    } else {
      two.Step(api, o, host);
    }
  }

  /** Two workers attach `a` and `b`, each on its own host, to the same outpost, in any interleaving;
      `schedule` says whose turn it is and how long after the last. One that is lost was on the list
      before: just what one worker alone never lets happen. */
  method TwoWorkers(api: Server, o: nat, a: nat, b: nat, hostA: string, hostB: string, schedule: seq<(bool, nat)>)
    returns (ghost r: Both, ghost turns: seq<(bool, bool)>)
    requires api.Valid() && o < |api.tables.outposts| && Calm(api.env, api.calls) && hostA != "" && hostB != ""
    modifies api`tables, api`calls, api`trace, api`clock
    ensures api.Valid() && old(api.trace) <= api.trace && |turns| == |schedule|
    ensures Answered(api.env, hostA, hostB, old(api.clock), schedule, turns)
    ensures var list := old(api.tables).outposts[o].providers;
            && r == Run(Begin(list, a, b), turns)
            && api.tables == WithList(old(api.tables), o, r.list)
            && (Attached(r.a) ==> (a !in r.list <==> FirstIsLost(list, r)))
            && (Attached(r.b) ==> (b !in r.list <==> SecondIsLost(list, r)))
            && ((Attached(r.a) && FirstIsLost(list, r)) || (Attached(r.b) && SecondIsLost(list, r)) ==>
                  !OnlyGrows(api.trace, |old(api.trace)|, api.tables))
  {
    hide WellFormed, Advance, Run, Turn, OnlyGrows, Racing, Recorded, FirstIsLost, SecondIsLost, Answered, Attached, Calm, Sends, Apply, With, WithList;
    ghost var t0, n, list, start := api.tables, |api.trace|, api.tables.outposts[o].providers, api.clock;
    SameList(t0, o);
    var one := new Attacher(a);
    var two := new Attacher(b);
    r, turns := Begin(list, a, b), [];
    RaceStarts(list, a, b, api.trace, n, o);
    NothingAnswered(api.env, hostA, hostB, start, schedule);
    ListTwice(t0, o, list, []);
    for i := 0 to |schedule|
      invariant api.Valid() && Calm(api.env, api.calls) && old(api.trace) <= api.trace && one.pk == a && two.pk == b
      invariant api.clock == ClockAt(start, schedule, i)
      invariant |turns| == i && Answered(api.env, hostA, hostB, start, schedule, turns)
      invariant r == Run(Begin(list, a, b), turns) && r.a == one.View() && r.b == two.View()
      invariant api.tables == WithList(t0, o, r.list)
      invariant Racing(list, r) && Recorded(list, r, api.trace, n, o)
    {
      var (first, later) := schedule[i];
      api.clock := api.clock + later;
      ghost var was, before, serves := api.tables, api.trace, api.env.serves(if first then hostA else hostB, api.clock);
      OneMoreAnswered(api.env, hostA, hostB, start, schedule, turns, serves);
      RunOne(Begin(list, a, b), turns, (first, serves));
      ListTwice(t0, o, r.list, Turn(r, first, serves).list);
      TakeTurn(api, one, two, r, first, o, if first then hostA else hostB);
      ListTwice(t0, o, Turn(r, first, serves).list, []);
      RecordedTurn(list, r, first, serves, before, api.trace, n, o, was, api.tables);
      RacingTurn(list, r, first, serves);
      r, turns := Turn(r, first, serves), turns + [(first, serves)];
    }
    LostExactlyWhen(list, a, b, turns);
    ListTwice(t0, o, r.list, []);
    LostIsRecorded(list, r, api.trace, n, o, api.tables);
  }

  lemma RaceStarts(list: seq<nat>, a: nat, b: nat, trace: seq<Entry>, n: nat, o: nat)
    ensures Run(Begin(list, a, b), []) == Begin(list, a, b)
    ensures Racing(list, Begin(list, a, b)) && Recorded(list, Begin(list, a, b), trace, n, o)
  {
  }

  lemma TurnMeans(r: Both, first: bool, serves: bool)
    ensures var next := Turn(r, first, serves);
            if first then (next.list, next.a) == Advance(r.list, r.a, serves) && next.b == r.b
            else (next.list, next.b) == Advance(r.list, r.b, serves) && next.a == r.a
  {
  }

  lemma LostIsRecorded(list: seq<nat>, r: Both, trace: seq<Entry>, n: nat, o: nat, now: Tables)
    requires n <= |trace| && Recorded(list, r, trace, n, o) && o < |now.outposts| && now.outposts[o].providers == r.list
    requires Attached(r.a) ==> (r.a.pk !in r.list <==> FirstIsLost(list, r))
    requires Attached(r.b) ==> (r.b.pk !in r.list <==> SecondIsLost(list, r))
    ensures (Attached(r.a) && FirstIsLost(list, r)) || (Attached(r.b) && SecondIsLost(list, r)) ==> !OnlyGrows(trace, n, now)
  {
    hide OnlyGrows, Attached, WasListed;
    if Attached(r.a) && FirstIsLost(list, r) {
      LosingShrinks(trace, n, o, r.a.pk, now);
    } else if Attached(r.b) && SecondIsLost(list, r) {
      LosingShrinks(trace, n, o, r.b.pk, now);
    }
  }

  /** Both read before either writes: whoever writes first is lost. */
  method BothReadFirst(api: Server, o: nat, a: nat, b: nat, hostA: string, hostB: string)
    requires api.Valid() && o < |api.tables.outposts| && Calm(api.env, api.calls) && hostA != "" && hostB != ""
    requires a != b && a !in api.tables.outposts[o].providers && b !in api.tables.outposts[o].providers
    modifies api`tables, api`calls, api`trace, api`clock
    ensures o < |api.tables.outposts| && a !in api.tables.outposts[o].providers && b in api.tables.outposts[o].providers
    ensures !OnlyGrows(api.trace, |old(api.trace)|, api.tables)
  {
    hide WellFormed, OnlyGrows;
    ghost var list := api.tables.outposts[o].providers;
    ghost var r, turns := TwoWorkers(api, o, a, b, hostA, hostB, [(true, 0), (false, 0), (true, 0), (false, 0)]);
    FirstWriterIsLost(list, a, b, turns);
  }

  lemma FirstWriterIsLost(list: seq<nat>, a: nat, b: nat, turns: seq<(bool, bool)>)
    requires |turns| == 4 && turns[0].0 && !turns[1].0 && turns[2].0 && !turns[3].0
    requires a != b && a !in list && b !in list
    ensures var r := Run(Begin(list, a, b), turns); Attached(r.a) && FirstIsLost(list, r) && r.list == list + [b]
  {
    var start := Begin(list, a, b);
    NothingRun(start);
    RunOne(start, [], turns[0]);
    RunOne(start, [turns[0]], turns[1]);
    RunOne(start, [turns[0], turns[1]], turns[2]);
    RunOne(start, [turns[0], turns[1], turns[2]], turns[3]);
    assert [] + [turns[0]] == [turns[0]] && [turns[0]] + [turns[1]] == [turns[0], turns[1]];
    assert [turns[0], turns[1]] + [turns[2]] == [turns[0], turns[1], turns[2]];
    assert [turns[0], turns[1], turns[2]] + [turns[3]] == turns;
    hide Run;
  }
}
