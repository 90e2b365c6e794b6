/** Events, timers, callbacks, the shutdown sequence and the worker, step by step in any
    interleaving: what the scheduler keeps and what it can lose. */
module Scheduling {
  import opened Options
  import opened Queue
  import opened Debounce

  /** How far the shutdown has come: flush, stop, close, in this order. */
  datatype Phase = Running | Flushing | Halted | Shut

  /** What has happened, for the claims. `latest` is the last id observed per key; `due` holds the
      keys observed since their last run; `lost` those whose flush was dropped; `accepted` the jobs
      an open queue took; `ran` the jobs the worker was given. */
  datatype History = History(latest: map<string, string>, observed: map<string, nat>, taken: map<string, nat>,
                             due: set<string>, lost: set<string>, accepted: seq<Job>, ran: seq<Job>)

  /** `flying` are jobs that callbacks have taken but not pushed yet; `flushing` is what is left of
      the shutdown flush. */
  datatype Sys = Sys(deb: Deb, flying: seq<Job>, flushing: seq<Job>, line: Line, phase: Phase, past: History)

  datatype Event =
    | Observe(key: string, id: string)
    | Expire(timer: nat)
    | Fire(timer: nat)
    | Land(i: nat)
    | Submit
    | Flush(jobs: seq<Job>)
    | FlushOne
    | Halt
    | Shutdown
    | Work

  const FULL_PASS_JOB := Job(FULL_PASS, "")

  function Count(m: map<string, nat>, key: string): nat {
    if key in m then m[key] else 0
  }

  function Incremented(m: map<string, nat>, keys: set<string>): map<string, nat> {
    map k | k in m.Keys + keys :: Count(m, k) + if k in keys then 1 else 0
  }

  function KeysOf(jobs: seq<Job>): set<string> {
    set j | j in jobs :: j.key
  }

  function Remove(jobs: seq<Job>, i: nat): seq<Job>
    requires i < |jobs|
  {
    jobs[..i] + jobs[i + 1..]
  }

  ghost predicate Enabled(s: Sys, e: Event) {
    match e
    case Observe(key, _) => key != FULL_PASS
    case Expire(timer) => timer in s.deb.armed
    case Fire(timer) => timer in s.deb.launched
    case Land(i) => i < |s.flying|
    case Submit => true
    case Flush(jobs) => s.phase.Running? && Lists(jobs, s.deb.pending)
    case FlushOne => s.phase.Flushing? && s.flushing != []
    case Halt => s.phase.Flushing? && s.flushing == []
    case Shutdown => s.phase.Halted?
    case Work => s.line.jobs != []
  }

  /** Hands one job to the queue, which drops it when closed. */
  function Handed(s: Sys, j: Job): Sys {
    if s.line.closed then s.(past := s.past.(lost := s.past.lost + {j.key}))
    else s.(line := Pushed(s.line, j), past := s.past.(accepted := s.past.accepted + [j]))
  }

  function TookAway(h: History, keys: set<string>): History {
    h.(taken := Incremented(h.taken, keys))
  }

  ghost function Step(s: Sys, e: Event): Sys
    requires Enabled(s, e)
  {
    match e
    case Observe(key, id) =>
      var after := s.(deb := Observed(s.deb, key, id));
      if s.deb.stopped then after
      else after.(past := s.past.(latest := s.past.latest[key := id], observed := Incremented(s.past.observed, {key}),
                                  due := s.past.due + {key}))
    case Expire(timer) => s.(deb := Expired(s.deb, timer))
    case Fire(timer) =>
      var after := s.(deb := Fired(s.deb, timer));
      if Takes(s.deb, timer).None? then after
      else after.(flying := s.flying + [Takes(s.deb, timer).value], past := TookAway(s.past, {Takes(s.deb, timer).value.key}))
    case Land(i) => Handed(s.(flying := Remove(s.flying, i)), s.flying[i])
    case Submit => if s.line.closed then s else Handed(s, FULL_PASS_JOB)
    case Flush(jobs) => s.(deb := Flushed(s.deb), flushing := jobs, phase := Flushing, past := TookAway(s.past, s.deb.pending.Keys))
    case FlushOne => Handed(s.(flushing := s.flushing[1..]), s.flushing[0])
    case Halt => s.(deb := Stopped(s.deb), phase := Halted, past := s.past.(lost := s.past.lost + s.deb.pending.Keys))
    case Shutdown => s.(line := s.line.(closed := true), phase := Shut)
    case Work => s.(line := Rest(s.line), past := s.past.(due := s.past.due - {s.line.jobs[0].key}, ran := s.past.ran + [s.line.jobs[0]]))
  }

  const START := Sys(Deb(map[], map[], false, map[], map[], 0), [], [], Line([], false), Running,
                     History(map[], map[], map[], {}, {}, [], []))

  // Runs.

  /** Where a run leads, if every event in it can happen when its turn comes. */
  ghost function Reached(s: Sys, run: seq<Event>): Option<Sys> {
    if run == [] then Some(s)
    else
      match Reached(s, run[..|run| - 1])
      case None => None
      case Some(t) => if Enabled(t, run[|run| - 1]) then Some(Step(t, run[|run| - 1])) else None
  }

  // The invariant.

  /** Every pending key has a live timer of its own: running, or expired and waiting for the lock. */
  ghost predicate TimersLive(d: Deb) {
    && d.timers.Keys == d.pending.Keys
    && (forall k | k in d.timers :: (d.timers[k] in d.armed && d.armed[d.timers[k]] == k)
                                    || (d.timers[k] in d.launched && d.launched[d.timers[k]] == k))
    && (forall t | t in d.armed :: t < d.next && t !in d.launched)
    && (forall t | t in d.launched :: t < d.next)
    && (d.stopped ==> d.pending == map[])
  }

  lemma ObservedLive(d: Deb, key: string, id: string)
    requires TimersLive(d)
    ensures TimersLive(Observed(d, key, id))
  {
  }

  lemma ExpiredLive(d: Deb, timer: nat)
    requires TimersLive(d) && timer in d.armed
    ensures TimersLive(Expired(d, timer))
  {
  }

  /** An observation starts the key's window afresh: a new timer runs for it, the one that ran is stopped, and no other timer is touched. */
  lemma WindowStartsAfresh(d: Deb, key: string, id: string)
    requires TimersLive(d) && !d.stopped
    ensures var after := Observed(d, key, id);
            && after.pending[key] == id && after.timers[key] == d.next && d.next in after.armed && after.armed[d.next] == key
            && (key in d.timers ==> d.timers[key] !in after.armed)
            && (forall t | t in d.armed && !(key in d.timers && d.timers[key] == t) :: t in after.armed && after.armed[t] == d.armed[t])
            && after.launched == d.launched
  {
  }

  /** A callback, current or stale, leaves every key that stays pending its timer. */
  lemma FiredLive(d: Deb, timer: nat)
    requires TimersLive(d) && timer in d.launched
    ensures TimersLive(Fired(d, timer))
  {
  }

  lemma HaltedLive(d: Deb)
    requires TimersLive(d)
    ensures TimersLive(Flushed(d)) && TimersLive(Stopped(d))
  {
    assert d.timers - d.pending.Keys == map[];
  }

  /** A pending id is the last one observed, takes never exceed observes, and the pass key is
      nobody's service. */
  ghost predicate Accounted(d: Deb, h: History) {
    && (forall k | k in d.pending :: k in h.latest && d.pending[k] == h.latest[k])
    && (forall k :: Count(h.taken, k) + (if k in d.pending then 1 else 0) <= Count(h.observed, k))
    && FULL_PASS !in h.latest
  }

  /** What each phase of the shutdown has established. */
  ghost predicate Staged(s: Sys) {
    && (s.phase.Running? || s.phase.Halted? || s.phase.Shut? ==> s.flushing == [])
    && (s.deb.stopped <==> s.phase.Halted? || s.phase.Shut?)
    && (s.line.closed <==> s.phase.Shut?)
    && OnePerKey(s.line.jobs)
  }

  /** A key observed since its last run is pending, in flight, queued or reported lost. */
  ghost predicate NoneForgotten(s: Sys) {
    s.past.due <= s.deb.pending.Keys + KeysOf(s.flying) + KeysOf(s.flushing) + KeysOf(s.line.jobs) + s.past.lost
  }

  ghost predicate Inv(s: Sys) {
    TimersLive(s.deb) && Accounted(s.deb, s.past) && Staged(s) && NoneForgotten(s)
  }

  lemma StepLive(s: Sys, e: Event)
    requires TimersLive(s.deb) && Enabled(s, e)
    ensures TimersLive(Step(s, e).deb)
  {
    hide TimersLive, Observed, Fired, Expired, Flushed, Stopped, Takes, Lists;
    match e
    case Observe(key, id) => ObservedLive(s.deb, key, id);
    case Expire(timer) => ExpiredLive(s.deb, timer);
    case Fire(timer) => FiredLive(s.deb, timer);
    case _ => HaltedLive(s.deb);
  }

  lemma CountIncremented(m: map<string, nat>, keys: set<string>)
    ensures forall k :: Count(Incremented(m, keys), k) == Count(m, k) + if k in keys then 1 else 0
  {
  }

  lemma StepAccounted(s: Sys, e: Event)
    requires Accounted(s.deb, s.past) && Staged(s) && Enabled(s, e)
    ensures Accounted(Step(s, e).deb, Step(s, e).past)
  {
    hide Lists, Incremented, Count, OnePerKey;
    match e
    case Observe(key, _) => CountIncremented(s.past.observed, {key});
    case Fire(timer) => CountIncremented(s.past.taken, {s.deb.launched[timer]});
    case Flush(_) => CountIncremented(s.past.taken, s.deb.pending.Keys);
    case _ =>
  }

  lemma StepStaged(s: Sys, e: Event)
    requires Staged(s) && Enabled(s, e)
    ensures Staged(Step(s, e))
  {
    hide OnePerKey, Enqueue, Lists;
    match e
    case Land(i) => EnqueueMeans(s.line.jobs, s.flying[i]);
    case FlushOne => EnqueueMeans(s.line.jobs, s.flushing[0]);
    case Submit => EnqueueMeans(s.line.jobs, FULL_PASS_JOB);
    case Work => RestOnePerKey(s.line);
    case _ =>
  }

  lemma EnqueueKeys(jobs: seq<Job>, j: Job)
    requires OnePerKey(jobs)
    ensures KeysOf(Enqueue(jobs, j)) == KeysOf(jobs) + {j.key}
  {
    var after := Enqueue(jobs, j);
    EnqueueMeans(jobs, j);
    forall x | x in jobs ensures x.key in KeysOf(after) {
      var i :| 0 <= i < |jobs| && jobs[i] == x;
      assert after[i] in after;
    }
    forall x | x in after ensures x.key in KeysOf(jobs) + {j.key} {
      var i :| 0 <= i < |after| && after[i] == x;
      assert i < |jobs| ==> jobs[i] in jobs;
    }
    assert j.key in KeysOf(after) by {
      if i :| 0 <= i < |jobs| && jobs[i].key == j.key {
        assert after[i] in after;
      } else {
        assert after[|jobs|] in after;
      }
    }
  }

  lemma RemoveKeys(jobs: seq<Job>, i: nat)
    requires i < |jobs|
    ensures KeysOf(jobs) == KeysOf(Remove(jobs, i)) + {jobs[i].key}
  {
    assert jobs == jobs[..i] + [jobs[i]] + jobs[i + 1..];
  }

  lemma AddKeys(jobs: seq<Job>, j: Job)
    ensures KeysOf(jobs + [j]) == KeysOf(jobs) + {j.key}
  {
  }

  lemma ListedKeys(jobs: seq<Job>, pending: map<string, string>)
    requires Lists(jobs, pending)
    ensures KeysOf(jobs) == pending.Keys && KeysOf([]) == {}
  {
  }

  /** No step forgets a key that is due. */
  lemma StepForgetsNone(s: Sys, e: Event)
    requires NoneForgotten(s) && Staged(s) && Enabled(s, e)
    ensures NoneForgotten(Step(s, e))
  {
    hide OnePerKey, Enqueue, Lists, KeysOf, Remove;
    match e
    case Fire(timer) =>
      if Takes(s.deb, timer).Some? {
        AddKeys(s.flying, Takes(s.deb, timer).value);
      }
    case Land(i) =>
      RemoveKeys(s.flying, i);
      EnqueueKeys(s.line.jobs, s.flying[i]);
    case FlushOne =>
      RemoveKeys(s.flushing, 0);
      assert Remove(s.flushing, 0) == s.flushing[1..] by { FirstRemoved(s.flushing); }
      EnqueueKeys(s.line.jobs, s.flushing[0]);
    case Submit => EnqueueKeys(s.line.jobs, FULL_PASS_JOB);
    case Flush(jobs) => ListedKeys(jobs, s.deb.pending);
    case Work =>
      RemoveKeys(s.line.jobs, 0);
      FirstRemoved(s.line.jobs);
    case _ =>
  }

  lemma FirstRemoved(jobs: seq<Job>)
    requires jobs != []
    ensures Remove(jobs, 0) == jobs[1..]
  {
  }

  /** The invariant holds in every state of every interleaving. */
  lemma {:induction false} Safe(run: seq<Event>)
    requires Reached(START, run).Some?
    ensures Inv(Reached(START, run).value)
  {
    if run != [] {
      Safe(run[..|run| - 1]);
      InvStep(Reached(START, run[..|run| - 1]).value, run[|run| - 1]);
    }
  }

  lemma InvStep(s: Sys, e: Event)
    requires Inv(s) && Enabled(s, e)
    ensures Inv(Step(s, e))
  {
    StepLive(s, e);
    StepAccounted(s, e);
    StepStaged(s, e);
    StepForgetsNone(s, e);
    hide TimersLive, Accounted, Staged, NoneForgotten, Step, Enabled;
  }

  // What follows for every run.

  /** Whatever callback or flush takes a key takes the last id observed for it, and a stopped
      debouncer gives nothing more. */
  lemma TakesTheLatest(s: Sys, timer: nat)
    requires Inv(s) && timer in s.deb.launched && Takes(s.deb, timer).Some?
    ensures var j := Takes(s.deb, timer).value; j.key in s.past.latest && j.id == s.past.latest[j.key]
    ensures s.phase.Running? || s.phase.Flushing?
  {
  }

  ghost predicate StoppedFor(s: Sys) {
    s.phase.Halted? || s.phase.Shut?
  }

  lemma StopIsFinal(s: Sys, e: Event)
    requires Inv(s) && StoppedFor(s) && Enabled(s, e)
    ensures StoppedFor(Step(s, e)) && Step(s, e).past.taken == s.past.taken && Step(s, e).past.observed == s.past.observed
  {
    hide TimersLive, Accounted, NoneForgotten, OnePerKey, Enqueue, Lists, KeysOf;
  }

  /** Nothing is taken after the stop, by whatever callbacks are still on their way. */
  lemma {:induction false} NothingTakenAfterStop(s: Sys, run: seq<Event>)
    requires Inv(s) && StoppedFor(s) && Reached(s, run).Some?
    ensures var t := Reached(s, run).value; Inv(t) && StoppedFor(t) && t.past.taken == s.past.taken && t.past.observed == s.past.observed
  {
    if run != [] {
      hide Inv, Step, StoppedFor, Enabled;
      NothingTakenAfterStop(s, run[..|run| - 1]);
      StopIsFinal(Reached(s, run[..|run| - 1]).value, run[|run| - 1]);
      InvStep(Reached(s, run[..|run| - 1]).value, run[|run| - 1]);
    }
  }

  /** The jobs of the flush are each still to be pushed or taken by the queue. */
  ghost predicate FlushKept(jobs: seq<Job>, from: nat, s: Sys) {
    && from <= |s.past.accepted|
    && forall j | j in jobs :: j in s.flushing || j in s.past.accepted[from..]
  }

  lemma FlushKeptStep(jobs: seq<Job>, from: nat, s: Sys, e: Event)
    requires FlushKept(jobs, from, s) && Staged(s) && !s.phase.Running? && Enabled(s, e)
    ensures FlushKept(jobs, from, Step(s, e)) && !Step(s, e).phase.Running?
  {
    hide OnePerKey, Enqueue, Lists;
    var t := Step(s, e);
    assert t.past.accepted[from..] == s.past.accepted[from..] + t.past.accepted[|s.past.accepted|..];
    if e.FlushOne? {
      assert s.flushing == [s.flushing[0]] + s.flushing[1..];
      assert t.past.accepted[|s.past.accepted|..] == [s.flushing[0]];
    }
  }

  lemma {:induction false} FlushedIsKept(run: seq<Event>, k: nat)
    requires k < |run| && run[k].Flush? && Reached(START, run).Some?
    ensures Reached(START, run[..k]).Some? && Enabled(Reached(START, run[..k]).value, run[k])
    ensures var s, t := Reached(START, run[..k]).value, Reached(START, run).value;
            !t.phase.Running? && FlushKept(run[k].jobs, |s.past.accepted|, t)
  {
    hide Step, Enabled, FlushKept;
    var before := run[..|run| - 1];
    if k == |before| {
      FlushStarts(Reached(START, before).value, run[k].jobs);
    } else {
      assert before[..k] == run[..k] && before[k] == run[k];
      FlushedIsKept(before, k);
      Safe(before);
      FlushKeptStep(run[k].jobs, |Reached(START, run[..k]).value.past.accepted|, Reached(START, before).value, run[|run| - 1]);
    }
  }

  /** Flush, stop, close, in this order: in any run with a flush in it, every key that was pending
      then is accepted by the queue, with its latest id, before the stop and so before the close. */
  lemma {:induction false} FlushedBeforeClose(run: seq<Event>, k: nat)
    requires k < |run| && run[k].Flush? && Reached(START, run).Some?
    ensures Reached(START, run[..k]).Some?
    ensures var s, t := Reached(START, run[..k]).value, Reached(START, run).value;
            StoppedFor(t) ==> forall key | key in s.deb.pending ::
              key in s.past.latest && |s.past.accepted| <= |t.past.accepted|
              && Job(key, s.past.latest[key]) in t.past.accepted[|s.past.accepted|..]
  {
    FlushedIsKept(run, k);
    Safe(run[..k]);
    Safe(run);
    var s, t := Reached(START, run[..k]).value, Reached(START, run).value;
    FlushListsPending(s, run[k].jobs);
    KeptIsAccepted(run[k].jobs, |s.past.accepted|, t);
  }

  lemma FlushListsPending(s: Sys, jobs: seq<Job>)
    requires Inv(s) && Enabled(s, Flush(jobs))
    ensures forall k | k in s.deb.pending :: k in s.past.latest && Job(k, s.past.latest[k]) in jobs
  {
    PendingListed(s, jobs);
  }

  lemma FlushStarts(s: Sys, jobs: seq<Job>)
    requires Enabled(s, Flush(jobs))
    ensures FlushKept(jobs, |s.past.accepted|, Step(s, Flush(jobs))) && Step(s, Flush(jobs)).phase.Flushing?
  {
  }

  lemma KeptIsAccepted(jobs: seq<Job>, from: nat, t: Sys)
    requires FlushKept(jobs, from, t) && Staged(t)
    ensures from <= |t.past.accepted| && (StoppedFor(t) ==> forall j | j in jobs :: j in t.past.accepted[from..])
  {
  }

  lemma PendingListed(s: Sys, jobs: seq<Job>)
    requires Accounted(s.deb, s.past) && Lists(jobs, s.deb.pending)
    ensures forall k | k in s.deb.pending :: k in s.past.latest && Job(k, s.past.latest[k]) in jobs
  {
  }

  /** What each event loses, exactly: a stop loses what was observed since the flush, and a callback that
      pushes after the close loses its key. */
  lemma LostOnlyInTheGap(s: Sys, e: Event)
    requires Inv(s) && Enabled(s, e)
    ensures Step(s, e).past.lost == s.past.lost +
              if e.Halt? then s.deb.pending.Keys else if e.Land? && s.phase.Shut? then {s.flying[e.i].key} else {}
  {
    hide OnePerKey, Lists, KeysOf;
  }

  /** With nothing lost and nothing in flight at the close, draining what is queued serves every
      key that is due. */
  lemma {:induction false} DrainServesAll(s: Sys, run: seq<Event>)
    requires Inv(s) && s.phase.Shut? && s.flying == [] && s.past.lost == {}
    requires |run| == |s.line.jobs| && (forall i | 0 <= i < |run| :: run[i].Work?) && Reached(s, run).Some?
    ensures Reached(s, run).value.past.due == {}
  {
    DrainLeaves(s, run);
  }

  lemma {:induction false} DrainLeaves(s: Sys, run: seq<Event>)
    requires Inv(s) && s.phase.Shut? && s.flying == [] && s.past.lost == {}
    requires |run| <= |s.line.jobs| && (forall i | 0 <= i < |run| :: run[i].Work?) && Reached(s, run).Some?
    ensures var t := Reached(s, run).value;
            && Inv(t) && t.phase.Shut? && t.flying == [] && t.past.lost == {} && |t.line.jobs| == |s.line.jobs| - |run|
            && (|run| == |s.line.jobs| ==> t.past.due == {})
  {
    hide TimersLive, Accounted, OnePerKey, Enqueue;
    if run != [] {
      DrainLeaves(s, run[..|run| - 1]);
      InvStep(Reached(s, run[..|run| - 1]).value, run[|run| - 1]);
    }
    DrainedMeans(Reached(s, run).value);
  }

  lemma DrainedMeans(t: Sys)
    requires Inv(t) && t.phase.Shut? && t.flying == [] && t.past.lost == {}
    ensures t.line.jobs == [] ==> t.past.due == {}
  {
    assert KeysOf([]) == {};
  }

  // Overtaking.

  /** The last id observed for the key is still on its way, or known to be lost. */
  ghost predicate OnItsWay(s: Sys, key: string)
    requires key in s.past.latest
  {
    key in s.deb.pending || Job(key, s.past.latest[key]) in s.flying + s.flushing || key in s.past.lost
  }

  /** No queued or flying job is out of date without the newer one being on its way. */
  ghost predicate Fresh(s: Sys) {
    && (forall j | j in s.line.jobs && j.key in s.past.latest :: j.id == s.past.latest[j.key] || OnItsWay(s, j.key))
    && (forall j | j in s.flying + s.flushing :: j.key in s.past.latest && OnItsWay(s, j.key))
  }

  /** The job that lands leaves an older one of its key in flight, with nothing newer on its way: the
      older one will replace it. */
  ghost predicate Overtakes(s: Sys, e: Event)
    requires Enabled(s, e)
  {
    && (e.Land? || e.FlushOne?) && !s.line.closed
    && var key := if e.Land? then s.flying[e.i].key else s.flushing[0].key;
       && key in KeysOf(Step(s, e).flying) + KeysOf(Step(s, e).flushing)
       && key in s.past.latest && !OnItsWay(Step(s, e), key)
  }

  lemma EnqueueMembers(jobs: seq<Job>, j: Job, x: Job)
    requires OnePerKey(jobs) && x in Enqueue(jobs, j)
    ensures x == j || (x in jobs && x.key != j.key)
  {
    EnqueueMeans(jobs, j);
    var i :| 0 <= i < |Enqueue(jobs, j)| && Enqueue(jobs, j)[i] == x;
    if x != j {
      assert i < |jobs| && jobs[i] == x;
    }
  }

  lemma RemoveMembers(jobs: seq<Job>, i: nat)
    requires i < |jobs|
    ensures forall x :: x in jobs <==> x == jobs[i] || x in Remove(jobs, i)
  {
    assert jobs == jobs[..i] + [jobs[i]] + jobs[i + 1..];
  }

  /** Handing over a job keeps the queue fresh; only what still flies can become the older one. */
  lemma HandedFresh(s: Sys, t: Sys, j: Job)
    requires Inv(s) && Fresh(s) && j in s.flying + s.flushing
    requires t == s.(flying := t.flying, flushing := t.flushing)
    requires forall x :: x in s.flying + s.flushing <==> x == j || x in t.flying + t.flushing
    ensures j.key in s.past.latest
    ensures Fresh(Handed(t, j)) <==>
              s.line.closed || j.key !in KeysOf(t.flying) + KeysOf(t.flushing) || OnItsWay(Handed(t, j), j.key)
  {
    hide Enqueue, OnePerKey, NoneForgotten, TimersLive;
    var after := Handed(t, j);
    forall x | x in after.line.jobs && x.key in s.past.latest
      ensures x.id == s.past.latest[x.key] || OnItsWay(after, x.key)
    {
      if !s.line.closed {
        EnqueueMembers(s.line.jobs, j, x);
      }
    }
    assert j.key in KeysOf(t.flying) + KeysOf(t.flushing) <==> exists f :: f in t.flying + t.flushing && f.key == j.key;
  }

  lemma SubmitFresh(s: Sys)
    requires Inv(s) && Fresh(s)
    ensures Fresh(Step(s, Submit))
  {
    hide TimersLive, NoneForgotten, Enqueue;
    if !s.line.closed {
      forall x | x in Step(s, Submit).line.jobs && x.key in s.past.latest ensures x in s.line.jobs {
        EnqueueMembers(s.line.jobs, FULL_PASS_JOB, x);
      }
    }
  }

  lemma LandFresh(s: Sys, e: Event)
    requires Inv(s) && Fresh(s) && Enabled(s, e) && (e.Land? || e.FlushOne?)
    ensures Fresh(Step(s, e)) <==> !Overtakes(s, e)
  {
    hide TimersLive, NoneForgotten, OnePerKey, Enqueue, Remove, Accounted, OnItsWay, Fresh, KeysOf;
    match e
    case Land(i) =>
      RemoveMembers(s.flying, i);
      HandedFresh(s, s.(flying := Remove(s.flying, i)), s.flying[i]);
    case FlushOne =>
      RemoveMembers(s.flushing, 0);
      FirstRemoved(s.flushing);
      HandedFresh(s, s.(flushing := s.flushing[1..]), s.flushing[0]);
  }

  lemma TakeFresh(s: Sys, e: Event)
    requires Inv(s) && Fresh(s) && Enabled(s, e) && (e.Fire? || e.Flush? || e.Halt?)
    ensures Fresh(Step(s, e))
  {
    hide TimersLive, NoneForgotten, OnePerKey, Enqueue, Handed, Incremented, TimersOf, KeysOf;
  }

  /** A fresh queue stays so exactly until such an overtaking. */
  lemma FreshStep(s: Sys, e: Event)
    requires Inv(s) && Fresh(s) && Enabled(s, e)
    ensures Fresh(Step(s, e)) <==> !Overtakes(s, e)
  {
    hide TimersLive, NoneForgotten, OnePerKey, Enqueue, Remove, Handed, Incremented, Lists, Accounted;
    match e
    case Land(_) => LandFresh(s, e);
    case FlushOne => LandFresh(s, e);
    case Submit => SubmitFresh(s);
    case Observe(_, _) =>
    case Expire(_) =>
    case Shutdown =>
    case Work =>
    case _ => TakeFresh(s, e);
  }

  ghost predicate NeverOvertakes(run: seq<Event>) {
    forall i | 0 <= i < |run| && Reached(START, run[..i]).Some? && Enabled(Reached(START, run[..i]).value, run[i]) ::
      !Overtakes(Reached(START, run[..i]).value, run[i])
  }

  /** Over every run without an overtaking, a queued job is the latest one for its key or the latest
      is on its way. */
  lemma {:induction false} QueueIsFresh(run: seq<Event>)
    requires Reached(START, run).Some? && NeverOvertakes(run)
    ensures Fresh(Reached(START, run).value)
  {
    if run != [] {
      var before := run[..|run| - 1];
      assert forall i | 0 <= i < |before| :: before[i] == run[i] && before[..i] == run[..i];
      QueueIsFresh(before);
      Safe(before);
      hide Step, Overtakes, Enabled, Fresh;
      FreshStep(Reached(START, before).value, run[|run| - 1]);
    }
  }

  /** The id the worker was last given for the key. */
  function LastRun(ran: seq<Job>, key: string): Option<string> {
    if ran == [] then None
    else if ran[|ran| - 1].key == key then Some(ran[|ran| - 1].id)
    else LastRun(ran[..|ran| - 1], key)
  }

  lemma OneMoreRun(ran: seq<Job>, j: Job)
    ensures forall key :: LastRun(ran + [j], key) == if j.key == key then Some(j.id) else LastRun(ran, key)
  {
    assert (ran + [j])[..|ran|] == ran;
  }

  /** The last id observed for a key is on its way, queued, or the last one run. */
  ghost predicate LatestKept(s: Sys) {
    forall key | key in s.past.latest ::
      OnItsWay(s, key) || Job(key, s.past.latest[key]) in s.line.jobs || LastRun(s.past.ran, key) == Some(s.past.latest[key])
  }

  /** Handing over a job keeps the latest ids: what it replaces it equals, or a newer one follows. */
  lemma HandedKept(s: Sys, t: Sys, j: Job)
    requires Inv(s) && Fresh(s) && LatestKept(s) && j in s.flying + s.flushing
    requires t == s.(flying := t.flying, flushing := t.flushing)
    requires forall x :: x in s.flying + s.flushing <==> x == j || x in t.flying + t.flushing
    ensures LatestKept(Handed(t, j))
  {
    hide Enqueue, OnePerKey, NoneForgotten, TimersLive, LastRun;
    var after := Handed(t, j);
    forall key | key in s.past.latest
      ensures OnItsWay(after, key) || Job(key, s.past.latest[key]) in after.line.jobs || LastRun(s.past.ran, key) == Some(s.past.latest[key])
    {
      var x := Job(key, s.past.latest[key]);
      if !s.line.closed && (x == j || (x in s.line.jobs && key != j.key)) {
        EnqueueKeeps(s.line.jobs, j);
      }
    }
  }

  lemma SubmitKept(s: Sys)
    requires Inv(s) && LatestKept(s)
    ensures LatestKept(Step(s, Submit))
  {
    hide TimersLive, NoneForgotten, Enqueue, OnePerKey, LastRun;
    if !s.line.closed {
      EnqueueKeeps(s.line.jobs, FULL_PASS_JOB);
    }
  }

  lemma WorkKept(s: Sys)
    requires Inv(s) && Fresh(s) && LatestKept(s) && Enabled(s, Work)
    ensures LatestKept(Step(s, Work))
  {
    hide TimersLive, NoneForgotten, Accounted, LastRun;
    OneMoreRun(s.past.ran, s.line.jobs[0]);
    assert s.line.jobs == [s.line.jobs[0]] + s.line.jobs[1..];
  }

  lemma LatestKeptStep(s: Sys, e: Event)
    requires Inv(s) && Fresh(s) && LatestKept(s) && Enabled(s, e)
    ensures LatestKept(Step(s, e))
  {
    hide TimersLive, NoneForgotten, OnePerKey, Enqueue, Remove, Handed, Incremented, LastRun, KeysOf, TimersOf;
    match e
    case Land(i) =>
      RemoveMembers(s.flying, i);
      HandedKept(s, s.(flying := Remove(s.flying, i)), s.flying[i]);
    case FlushOne =>
      RemoveMembers(s.flushing, 0);
      FirstRemoved(s.flushing);
      HandedKept(s, s.(flushing := s.flushing[1..]), s.flushing[0]);
    case Submit => SubmitKept(s);
    case Work => WorkKept(s);
    case _ =>
  }

  /** Over every run without an overtaking the last id observed for a key is on its way, waiting in the
      queue, or the last one the worker was given. */
  lemma {:induction false} LatestIsKept(run: seq<Event>)
    requires Reached(START, run).Some? && NeverOvertakes(run)
    ensures LatestKept(Reached(START, run).value)
  {
    if run != [] {
      var before := run[..|run| - 1];
      assert forall i | 0 <= i < |before| :: before[i] == run[i] && before[..i] == run[..i];
      LatestIsKept(before);
      QueueIsFresh(before);
      Safe(before);
      hide Step, Overtakes, Enabled, Fresh, LatestKept, Inv;
      LatestKeptStep(Reached(START, before).value, run[|run| - 1]);
    }
  }

  /** Once the closed queue is drained, nothing lost and nothing overtaken, the last run of every key ever
      observed was for its latest id. */
  lemma DrainedRanTheLatest(run: seq<Event>)
    requires Reached(START, run).Some? && NeverOvertakes(run)
    ensures var t := Reached(START, run).value;
            t.phase.Shut? && t.flying == [] && t.past.lost == {} && t.line.jobs == [] ==>
              forall key | key in t.past.latest :: LastRun(t.past.ran, key) == Some(t.past.latest[key])
  {
    Safe(run);
    LatestIsKept(run);
    hide Reached, LastRun;
  }

  /** One event more. */
  lemma Extend(run: seq<Event>, s: Sys, e: Event) returns (longer: seq<Event>)
    requires Reached(START, run) == Some(s) && Enabled(s, e)
    ensures longer == run + [e] && Reached(START, longer) == Some(Step(s, e))
  {
    longer := run + [e];
    assert longer[..|run|] == run;
  }

  /** One event more, and what it leads to. */
  lemma Follow(run: seq<Event>, s: Sys, e: Event) returns (longer: seq<Event>, t: Sys)
    requires Reached(START, run) == Some(s) && Enabled(s, e)
    ensures Reached(START, longer) == Some(t) && t == Step(s, e)
  {
    longer := Extend(run, s, e);
    t := Step(s, e);
  }

  /** Observed, run out and taken: one job in flight and nothing pending. */
  lemma OneInFlight(id: string) returns (run: seq<Event>, s: Sys)
    ensures Reached(START, run) == Some(s)
    ensures s.flying == [Job("app", id)] && s.deb == Deb(map[], map[], false, map[], map[], 1)
    ensures s.flushing == [] && s.line == Line([], false) && s.phase.Running?
    ensures s.past.latest == map["app" := id] && s.past.lost == {} && s.past.due == {"app"}
  {
    hide Incremented, KeysOf, Lists, TimersOf, Reached;
    NothingHappened();
    run, s := Follow([], START, Observe("app", id));
    run, s := Follow(run, s, Expire(0));
    run, s := Follow(run, s, Fire(0));
  }

  lemma NothingHappened()
    ensures Reached(START, []) == Some(START)
  {
  }

  /** With two in flight the older one can land last: a job for a container that is already gone
      replaces the newer one, with nothing left on its way. */
  lemma OlderCanLandLast() returns (run: seq<Event>, s: Sys)
    ensures Reached(START, run) == Some(s)
    ensures s.line.jobs == [Job("app", "old")] && s.past.latest == map["app" := "new"] && !OnItsWay(s, "app")
  {
    hide Incremented, KeysOf, Lists, TimersOf, OnePerKey, Reached;
    run, s := TwoInFlight();
    run, s := Follow(run, s, Land(1));
    assert s.flying == [Job("app", "old")];
    run, s := Follow(run, s, Land(0));
  }

  lemma TwoInFlight() returns (run: seq<Event>, s: Sys)
    ensures Reached(START, run) == Some(s)
    ensures s.flying == [Job("app", "old"), Job("app", "new")] && s.deb.pending == map[] && s.flushing == [] && s.line == Line([], false)
    ensures s.past.latest == map["app" := "new"] && s.past.lost == {}
  {
    hide Incremented, KeysOf, Lists, TimersOf, Reached;
    run, s := OneInFlight("old");
    run, s := Follow(run, s, Observe("app", "new"));
    run, s := Follow(run, s, Expire(1));
    run, s := Follow(run, s, Fire(1));
  }

  /** A push can come after the close. */
  lemma PushCanComeTooLate() returns (run: seq<Event>, s: Sys)
    ensures Reached(START, run) == Some(s)
    ensures s.past.lost == {"app"} && s.past.due == {"app"} && s.line == Line([], true) && s.flying == [] && s.deb.pending == map[]
  {
    hide KeysOf, Incremented, Enqueue, TimersOf, Reached;
    run, s := OneInFlight("a");
    run, s := Follow(run, s, Flush([]));
    run, s := Follow(run, s, Halt);
    run, s := Follow(run, s, Shutdown);
    run, s := Follow(run, s, Land(0));
  }

  // Which timers a stop reaches.

  /** Every running timer is the one its key knows. */
  ghost predicate Tracked(d: Deb) {
    forall t | t in d.armed :: d.armed[t] in d.timers && d.timers[d.armed[t]] == t
  }

  /** The stop halts every timer exactly when all of them are tracked. */
  lemma StopHaltsAllTracked(d: Deb)
    requires TimersLive(d)
    ensures Stopped(d).armed == map[] <==> Tracked(d)
  {
    if Tracked(d) {
      forall t | t in d.armed ensures t in TimersOf(d.timers, d.timers.Keys) {
        assert d.armed[t] in d.timers;
      }
      assert Stopped(d).armed.Keys == {};
    }
    if t :| t in d.armed && !(d.armed[t] in d.timers && d.timers[d.armed[t]] == t) {
      assert t in Stopped(d).armed;
    }
  }

  /** A callback that outlived its timer's restart takes the key while the newer timer runs. */
  ghost predicate StaleTake(s: Sys, e: Event) {
    && e.Fire? && e.timer in s.deb.launched && Takes(s.deb, e.timer).Some?
    && s.deb.launched[e.timer] in s.deb.timers && s.deb.timers[s.deb.launched[e.timer]] in s.deb.armed
  }

  /** Nothing but such a take ever leaves a timer behind. */
  lemma TrackedStep(s: Sys, e: Event)
    requires Inv(s) && Tracked(s.deb) && Enabled(s, e)
    ensures Tracked(Step(s, e).deb) <==> !StaleTake(s, e)
  {
    hide Accounted, NoneForgotten, Staged, OnePerKey, Enqueue, KeysOf, Incremented, Lists;
    if StaleTake(s, e) {
      var left := s.deb.timers[s.deb.launched[e.timer]];
      assert left in Step(s, e).deb.armed;
    }
  }

  ghost predicate NeverStale(run: seq<Event>) {
    forall i | 0 <= i < |run| && Reached(START, run[..i]).Some? :: !StaleTake(Reached(START, run[..i]).value, run[i])
  }

  /** Over a run without such a take, stopping leaves no timer running. */
  lemma {:induction false} StopReachesAll(run: seq<Event>)
    requires Reached(START, run).Some? && NeverStale(run)
    ensures Tracked(Reached(START, run).value.deb) && Stopped(Reached(START, run).value.deb).armed == map[]
  {
    Safe(run);
    hide Stopped, Step, Enabled, StaleTake, Tracked;
    if run != [] {
      var before := run[..|run| - 1];
      assert forall i | 0 <= i < |before| :: before[i] == run[i] && before[..i] == run[..i];
      StopReachesAll(before);
      Safe(before);
      TrackedStep(Reached(START, before).value, run[|run| - 1]);
    } else {
      NothingRuns();
    }
    StopHaltsAllTracked(Reached(START, run).value.deb);
  }

  lemma NothingRuns()
    ensures Tracked(START.deb)
  {
  }

  /** A stale callback frees the key but not the timer that is running for it, so the stop misses
      that timer. Its callback finds nothing pending. */
  lemma StopCanMissATimer() returns (run: seq<Event>, s: Sys)
    ensures Reached(START, run) == Some(s)
    ensures s.phase.Halted? && 1 in s.deb.armed && Takes(Expired(s.deb, 1), 1).None?
  {
    hide Incremented, KeysOf, Enqueue, Reached;
    NothingHappened();
    run, s := Follow([], START, Observe("app", "a"));
    run, s := Follow(run, s, Expire(0));
    run, s := Follow(run, s, Observe("app", "b"));
    run, s := Follow(run, s, Fire(0));
    assert s.deb.pending == map[];
    run, s := Follow(run, s, Flush([]));
    run, s := Follow(run, s, Halt);
  }
}
