/** The debouncer: per-key quiet-window timers whose callbacks race with new events, and the two
    steps a flush takes, once under the lock and once outside it. */
module Debounce {
  import opened Options
  import opened Queue

  /** The debouncer's fields and the timers behind them. A timer runs (`armed`) until it is stopped
      or expires; an expired one is a callback waiting for the lock (`launched`), and stopping it
      then comes too late. */
  datatype Deb = Deb(timers: map<string, nat>, pending: map<string, string>, stopped: bool,
                     armed: map<nat, string>, launched: map<nat, string>, next: nat)

  function Observed(d: Deb, key: string, id: string): Deb {
    if d.stopped then d
    else
      var running := if key in d.timers then d.armed - {d.timers[key]} else d.armed;
      d.(pending := d.pending[key := id], timers := d.timers[key := d.next],
         armed := running[d.next := key], next := d.next + 1)
  }

  function Expired(d: Deb, timer: nat): Deb
    requires timer in d.armed
  {
    d.(armed := d.armed - {timer}, launched := d.launched[timer := d.armed[timer]])
  }

  /** What the callback of `timer` takes once it holds the lock. */
  function Takes(d: Deb, timer: nat): Option<Job>
    requires timer in d.launched
  {
    var key := d.launched[timer];
    if key in d.pending && !d.stopped then Some(Job(key, d.pending[key])) else None
  }

  function Fired(d: Deb, timer: nat): Deb
    requires timer in d.launched
  {
    var key := d.launched[timer];
    var rest := d.(launched := d.launched - {timer});
    if Takes(d, timer).None? then rest else rest.(pending := d.pending - {key}, timers := d.timers - {key})
  }

  /** The jobs of the keys in `done`, in some order. */
  ghost predicate ListsSome(jobs: seq<Job>, pending: map<string, string>, done: set<string>) {
    && OnePerKey(jobs)
    && (forall j | j in jobs :: j.key in done && j.key in pending && j.id == pending[j.key])
    && (forall k | k in done :: k in pending && Job(k, pending[k]) in jobs)
  }

  ghost predicate Lists(jobs: seq<Job>, pending: map<string, string>) {
    ListsSome(jobs, pending, pending.Keys)
  }

  lemma ListOne(jobs: seq<Job>, pending: map<string, string>, done: set<string>, key: string)
    requires ListsSome(jobs, pending, done) && key in pending && key !in done
    ensures ListsSome(jobs + [Job(key, pending[key])], pending, done + {key})
  {
    assert forall i | 0 <= i < |jobs| :: jobs[i] in jobs;
  }

  /** The timers that hold these keys. */
  function TimersOf(timers: map<string, nat>, keys: set<string>): set<nat> {
    set k | k in timers && k in keys :: timers[k]
  }

  function Flushed(d: Deb): Deb {
    if d.stopped then d
    else d.(pending := map[], timers := d.timers - d.pending.Keys, armed := d.armed - TimersOf(d.timers, d.pending.Keys))
  }

  function Stopped(d: Deb): Deb {
    d.(stopped := true, pending := map[], timers := map[], armed := d.armed - TimersOf(d.timers, d.timers.Keys))
  }

  class Debouncer {
    var timers: map<string, nat>
    var pending: map<string, string>
    var stopped: bool
    var armed: map<nat, string>
    var launched: map<nat, string>
    var next: nat

    function View(): Deb
      reads this
    {
      Deb(timers, pending, stopped, armed, launched, next)
    }

    constructor ()
      ensures View() == Deb(map[], map[], false, map[], map[], 0)
    {
      timers, pending, stopped, armed, launched, next := map[], map[], false, map[], map[], 0;
    }

    /** Records the latest id for the key and restarts its quiet window. */
    method Observe(key: string, id: string)
      modifies this
      ensures View() == Observed(old(View()), key, id)
    {
      if stopped {
        return;
      }
      pending := pending[key := id];
      if key in timers {
        armed := armed - {timers[key]};
      }
      timers := timers[key := next];
      armed := armed[next := key];
      next := next + 1;
    }

    /** The locked half of a callback. The caller hands `taken` to the queue after the lock is gone. */
    method Fire(timer: nat) returns (taken: Option<Job>)
      requires timer in launched
      modifies this
      ensures taken == Takes(old(View()), timer) && View() == Fired(old(View()), timer)
    {
      var key := launched[timer];
      launched := launched - {timer};
      if key !in pending || stopped {
        return None;
      }
      taken := Some(Job(key, pending[key]));
      pending := pending - {key};
      timers := timers - {key};
    }

    /** The locked half of the shutdown flush: every pending key, its timer stopped. */
    method TakeAll() returns (jobs: seq<Job>)
      modifies this
      ensures View() == Flushed(old(View()))
      ensures if old(stopped) then jobs == [] else Lists(jobs, old(pending))
    {
      jobs := [];
      if stopped {
        return;
      }
      ghost var was := View();
      var rest := pending.Keys;
      while rest != {}
        invariant View() == was && rest <= pending.Keys && ListsSome(jobs, pending, pending.Keys - rest)
      {
        var key :| key in rest;
        ListOne(jobs, pending, pending.Keys - rest, key);
        jobs := jobs + [Job(key, pending[key])];
        rest := rest - {key};
        assert pending.Keys - rest == pending.Keys - (rest + {key}) + {key};
      }
      assert pending.Keys - rest == pending.Keys;
      armed := armed - TimersOf(timers, pending.Keys);
      timers := timers - pending.Keys;
      pending := map[];
    }

    /** Halts every timer and refuses what comes later. What is still pending is dropped. */
    method Stop()
      modifies this
      ensures View() == Stopped(old(View()))
    {
      stopped := true;
      armed := armed - TimersOf(timers, timers.Keys);
      timers := map[];
      pending := map[];
    }
  }
}
