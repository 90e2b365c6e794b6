/** The shutdown: flush, stop and close, then a drain that waits for the worker as long as it
    makes progress. */
module Shutdown {
  import opened Options
  import opened Queue
  import opened Debounce

  // Flush, stop, close.

  function EnqueueAll(jobs: seq<Job>, more: seq<Job>): seq<Job> {
    if more == [] then jobs else Enqueue(EnqueueAll(jobs, more[..|more| - 1]), more[|more| - 1])
  }

  /** With one push per key none replaces another, so all of them are waiting at the end, and
      every key that was waiting before still is. */
  lemma {:induction false} AllAreQueued(jobs: seq<Job>, more: seq<Job>)
    requires OnePerKey(jobs) && OnePerKey(more)
    ensures var after := EnqueueAll(jobs, more);
            && OnePerKey(after) && |jobs| <= |after|
            && (forall j | j in more :: j in after)
            && (forall i | 0 <= i < |jobs| :: after[i].key == jobs[i].key && (after[i] == jobs[i] || after[i] in more))
  {
    hide Enqueue, OnePerKey;
    if more != [] {
      var before, last := more[..|more| - 1], more[|more| - 1];
      var mid := EnqueueAll(jobs, before);
      var after := Enqueue(mid, last);
      assert EnqueueAll(jobs, more) == after;
      hide EnqueueAll;
      FrontHasOtherKeys(more);
      AllAreQueued(jobs, before);
      EnqueueMeans(mid, last);
      EnqueueKeeps(mid, last);
      forall j | j in more ensures j in after {
        assert j != last ==> j in before by { assert more == before + [last]; }
      }
      forall i | 0 <= i < |jobs| ensures after[i].key == jobs[i].key && (after[i] == jobs[i] || after[i] in more) {
        assert mid[i] in before ==> mid[i] in more by { assert more == before + [last]; }
      }
    }
  }

  lemma FrontHasOtherKeys(more: seq<Job>)
    requires more != [] && OnePerKey(more)
    ensures OnePerKey(more[..|more| - 1])
    ensures forall j | j in more[..|more| - 1] :: j.key != more[|more| - 1].key
  {
  }

  /** With no callback in flight: what is pending is queued with its latest id, and the queue takes
      nothing after it. */
  method CloseDown(deb: Debouncer, q: WorkQueue) returns (ghost flushed: seq<Job>)
    requires q.Valid() && !deb.stopped && !q.closed
    modifies deb, q
    ensures q.Valid() && deb.stopped && deb.pending == map[]
    ensures Lists(flushed, old(deb.pending))
    ensures q.Contents() == Line(EnqueueAll(old(q.Contents()).jobs, flushed), true)
  {
    var jobs := deb.TakeAll();
    flushed := jobs;
    for i := 0 to |jobs|
      invariant q.Valid() && deb.stopped == old(deb.stopped)
      invariant q.Contents() == Line(EnqueueAll(old(q.Contents()).jobs, jobs[..i]), false)
    {
      assert jobs[..i + 1][..i] == jobs[..i];
      q.Push(jobs[i]);
    }
    assert jobs[..|jobs|] == jobs;
    deb.Stop();
    q.Close();
  }

  // The drain.

  /** The worker from the moment the drain starts: when it completes its jobs, how many it has left
      (none means it never finishes), when it exits by itself, and how long it takes to stop once
      cancelled. */
  datatype Worker = Worker(completion: nat -> nat, total: Option<nat>, end: nat, honour: nat)

  predicate Completes(w: Worker, k: nat) {
    w.total.Some? ==> k < w.total.value
  }

  /** Every job takes time, and the exit comes after the last job. */
  ghost predicate Sane(w: Worker, start: nat) {
    && start < w.completion(0)
    && (forall k: nat :: w.completion(k) < w.completion(k + 1))
    && (w.total.Some? ==> Last(w, start, w.total.value) <= w.end)
  }

  /** The time of the latest progress once `k` completions have been seen. */
  function Last(w: Worker, start: nat, k: nat): nat {
    if k == 0 then start else w.completion(k - 1)
  }

  datatype Cause = Clean | Stalled | Ceiling
  datatype Source = Drained | JobDone | StallTimer | CeilingTimer

  /** When the worker is gone, after a cancel at `at`. */
  function Exit(w: Worker, at: nat): nat {
    if w.total.Some? && w.end < at + w.honour then (if w.end < at then at else w.end) else at + w.honour
  }

  lemma {:induction false} TimePasses(w: Worker, start: nat, k: nat)
    requires Sane(w, start)
    ensures start + k < w.completion(k)
  {
    if k > 0 {
      TimePasses(w, start, k - 1);
    }
  }

  lemma {:induction false} CompletionsAscend(w: Worker, start: nat, j: nat, k: nat)
    requires Sane(w, start) && j <= k
    ensures w.completion(j) <= w.completion(k) && Last(w, start, j) <= w.completion(k)
  {
    if j < k {
      CompletionsAscend(w, start, j, k - 1);
    }
  }

  /** Every gap between two completions, and up to the exit, is shorter than the stall window. */
  ghost predicate Steady(w: Worker, start: nat, stall: nat) {
    && (forall k: nat | Completes(w, k) :: w.completion(k) < Last(w, start, k) + stall)
    && (w.total.Some? ==> w.end < Last(w, start, w.total.value) + stall)
  }

  /** What becomes ready first, given the two timers; when several things are ready at once, any
      one of them. */
  method Select(w: Worker, seen: nat, stallAt: nat, ceilingAt: nat) returns (source: Source, at: nat)
    ensures at <= stallAt && at <= ceilingAt
    ensures (Completes(w, seen) ==> at <= w.completion(seen)) && (w.total.Some? ==> at <= w.end)
    ensures match source
            case Drained => w.total.Some? && at == w.end
            case JobDone => Completes(w, seen) && at == w.completion(seen)
            case StallTimer => at == stallAt
            case CeilingTimer => at == ceilingAt
  {
    at := if stallAt < ceilingAt then stallAt else ceilingAt;
    if Completes(w, seen) && w.completion(seen) < at {
      at := w.completion(seen);
    }
    if w.total.Some? && w.end < at {
      at := w.end;
    }
    source :| match source
              case Drained => w.total.Some? && at == w.end
              case JobDone => Completes(w, seen) && at == w.completion(seen)
              case StallTimer => at == stallAt
              case CeilingTimer => at == ceilingAt;
  }

  /** The loop never has to know more than this about the past. */
  ghost predicate Progressed(w: Worker, start: nat, stall: nat, seen: nat) {
    && (w.total.Some? ==> seen <= w.total.value)
    && forall k | 0 <= k < seen :: Completes(w, k) && w.completion(k) <= Last(w, start, k) + stall
  }

  lemma ProgressOne(w: Worker, start: nat, stall: nat, seen: nat)
    requires Sane(w, start) && Progressed(w, start, stall, seen)
    ensures Completes(w, seen) && w.completion(seen) <= Last(w, start, seen) + stall ==> Progressed(w, start, stall, seen + 1)
    ensures Last(w, start, seen + 1) == w.completion(seen) && start + seen < w.completion(seen)
    ensures w.total.Some? ==> Last(w, start, seen) <= w.end
    ensures forall k: nat | seen <= k :: w.completion(seen) <= w.completion(k)
    // A steady worker has more to show before the window closes.
    ensures Steady(w, start, stall) ==>
              if Completes(w, seen) then w.completion(seen) < Last(w, start, seen) + stall else w.end < Last(w, start, seen) + stall
  {
    TimePasses(w, start, seen);
    LastBeforeEnd(w, start, seen);
    forall k: nat | seen <= k ensures w.completion(seen) <= w.completion(k) {
      CompletionsAscend(w, start, seen, k);
    }
  }

  /** Waits for the worker: each completion restarts the stall window, the ceiling never moves. */
  method Drain(w: Worker, start: nat, stall: nat, ceiling: nat) returns (cause: Cause, at: nat, finished: nat, seen: nat)
    requires Sane(w, start)
    // It ends, within the ceiling plus the time the worker takes to stop.
    ensures at <= start + ceiling && at <= finished <= at + w.honour
    // The worker is cancelled only after a full window without progress, or at the ceiling.
    ensures cause.Stalled? ==> at == Last(w, start, seen) + stall && forall k: nat | seen <= k && Completes(w, k) :: at <= w.completion(k)
    ensures cause.Ceiling? ==> at == start + ceiling
    ensures cause.Clean? ==> w.total.Some? && at == finished == w.end
    // No progress that was seen came later than a window after the one before.
    ensures Progressed(w, start, stall, seen) && at <= Last(w, start, seen) + stall
    // A steady worker is cut off by the ceiling only.
    ensures Steady(w, start, stall) ==> !cause.Stalled? && (cause.Clean? <== w.total.Some? && w.end < start + ceiling)
  {
    hide Progressed, Steady, Sane, Last, Exit;
    var stallAt, ceilingAt := start + stall, start + ceiling;
    seen := 0;
    DrainStarts(w, start, stall);
    while true
      invariant stallAt == Last(w, start, seen) + stall && start + seen <= Last(w, start, seen) <= ceilingAt
      invariant Progressed(w, start, stall, seen)
      decreases ceiling + 1 - seen
    {
      ProgressOne(w, start, stall, seen);
      var source;
      source, at := Select(w, seen, stallAt, ceilingAt);
      match source {
        case Drained => return Clean, at, at, seen;
        case JobDone =>
          seen := seen + 1;
          stallAt := at + stall;
        case StallTimer =>
          ExitInTime(w, at);
          return Stalled, at, Exit(w, at), seen;
        case CeilingTimer =>
          ExitInTime(w, at);
          return Ceiling, at, Exit(w, at), seen;
      }
    }
  }

  lemma DrainStarts(w: Worker, start: nat, stall: nat)
    ensures Progressed(w, start, stall, 0) && Last(w, start, 0) == start
  {
  }

  lemma ExitInTime(w: Worker, at: nat)
    ensures at <= Exit(w, at) <= at + w.honour
  {
  }

  lemma LastBeforeEnd(w: Worker, start: nat, k: nat)
    requires Sane(w, start) && (w.total.Some? ==> k <= w.total.value)
    ensures w.total.Some? ==> Last(w, start, k) <= w.end
  {
    if w.total.Some? && k < w.total.value {
      CompletionsAscend(w, start, k, w.total.value - 1);
    }
  }
}
