/** The daemon's coalescing queue and its single consumer. */
module Queue {
  datatype Job = Job(key: string, id: string)

  /** The key of the boot and full pass: no service name starts with a NUL. */
  const FULL_PASS: string := "\0fullpass"

  /** What `pop` finds: a job, nothing yet, or a queue that is closed and drained. */
  datatype Popped = Taken(job: Job) | Waiting | Drained

  /** The queue as its users see it: the waiting jobs, oldest first. */
  datatype Line = Line(jobs: seq<Job>, closed: bool)

  ghost predicate OnePerKey(jobs: seq<Job>) {
    forall i, j | 0 <= i < j < |jobs| :: jobs[i].key != jobs[j].key
  }

  /** A job for a waiting key takes that key's place; any other goes to the back. */
  function Enqueue(jobs: seq<Job>, j: Job): seq<Job> {
    if jobs == [] then [j]
    else if jobs[0].key == j.key then [j] + jobs[1..]
    else [jobs[0]] + Enqueue(jobs[1..], j)
  }

  predicate Queued(jobs: seq<Job>, key: string) {
    exists i :: 0 <= i < |jobs| && jobs[i].key == key
  }

  lemma QueuedInTail(jobs: seq<Job>, key: string)
    requires jobs != []
    ensures Queued(jobs, key) <==> jobs[0].key == key || Queued(jobs[1..], key)
    ensures OnePerKey(jobs) ==> OnePerKey(jobs[1..]) && (jobs[0].key == key ==> !Queued(jobs[1..], key))
  {
    var tail := jobs[1..];
    assert forall i | 0 <= i < |tail| :: tail[i] == jobs[i + 1];
    if i :| 0 <= i < |jobs| && jobs[i].key == key {
      assert i > 0 ==> tail[i - 1].key == key;
    }
  }

  /** `Enqueue` without recursion: every place keeps its key, and only the one for `j` changes. */
  lemma {:induction false} EnqueueMeans(jobs: seq<Job>, j: Job)
    requires OnePerKey(jobs)
    ensures |Enqueue(jobs, j)| == |jobs| + if Queued(jobs, j.key) then 0 else 1
    ensures forall i | 0 <= i < |jobs| :: Enqueue(jobs, j)[i] == if jobs[i].key == j.key then j else jobs[i]
    ensures !Queued(jobs, j.key) ==> Enqueue(jobs, j) == jobs + [j]
    ensures OnePerKey(Enqueue(jobs, j))
  {
    EnqueuePlaces(jobs, j);
    assert Queued(jobs, j.key) || forall i | 0 <= i < |jobs| :: jobs[i].key != j.key;
    hide Enqueue;
  }

  lemma {:induction false} EnqueuePlaces(jobs: seq<Job>, j: Job)
    requires OnePerKey(jobs)
    ensures |Enqueue(jobs, j)| == |jobs| + if Queued(jobs, j.key) then 0 else 1
    ensures forall i | 0 <= i < |jobs| :: Enqueue(jobs, j)[i] == if jobs[i].key == j.key then j else jobs[i]
    ensures !Queued(jobs, j.key) ==> Enqueue(jobs, j) == jobs + [j]
  {
    if jobs != [] {
      QueuedInTail(jobs, j.key);
      var tail := jobs[1..];
      EnqueuePlaces(tail, j);
      assert forall i | 0 < i < |jobs| :: jobs[i] == tail[i - 1];
      hide Queued;
    }
  }

  lemma EnqueueKeeps(jobs: seq<Job>, j: Job)
    requires OnePerKey(jobs)
    ensures j in Enqueue(jobs, j)
    ensures forall x | x in jobs && x.key != j.key :: x in Enqueue(jobs, j)
  {
    EnqueueMeans(jobs, j);
    hide Enqueue;
    var after := Enqueue(jobs, j);
    if i :| 0 <= i < |jobs| && jobs[i].key == j.key {
      assert after[i] in after;
    } else {
      assert after[|jobs|] in after;
    }
    forall x | x in jobs && x.key != j.key ensures x in after {
      var i :| 0 <= i < |jobs| && jobs[i] == x;
      assert after[i] in after;
    }
  }

  class WorkQueue {
    var order: seq<string>
    var pending: map<string, Job>
    var closed: bool

    ghost predicate Valid()
      reads this
    {
      && (forall i, j | 0 <= i < j < |order| :: order[i] != order[j])
      && (forall k :: k in pending <==> k in order)
      && (forall k | k in pending :: pending[k].key == k)
    }

    ghost function Contents(): (line: Line)
      reads this
      requires Valid()
      ensures |line.jobs| == |order|
    {
      Line(seq(|order|, i requires 0 <= i < |order| reads this requires Valid() => pending[order[i]]), closed)
    }

    constructor ()
      ensures Valid() && Contents() == Line([], false)
    {
      order, pending, closed := [], map[], false;
    }

    method Push(j: Job)
      requires Valid()
      modifies this
      ensures Valid() && Contents() == Pushed(old(Contents()), j)
    {
      hide Enqueue;
      if closed {
        return;
      }
      ghost var jobs := Contents().jobs;
      EnqueueMeans(jobs, j);
      assert Queued(jobs, j.key) <==> j.key in pending by {
        assert forall i | 0 <= i < |order| :: jobs[i].key == order[i];
      }
      if j.key !in pending {
        order := order + [j.key];
      }
      pending := pending[j.key := j];
      assert Contents().jobs == Enqueue(jobs, j);
    }

    /** One attempt of the consumer; on `Waiting` it sleeps until the next push or close. */
    method Pop() returns (r: Popped)
      requires Valid()
      modifies this
      ensures Valid() && r == Front(old(Contents())) && Contents() == Rest(old(Contents()))
    {
      if order == [] {
        return if closed then Drained else Waiting;
      }
      ghost var jobs := Contents().jobs;
      var key := order[0];
      order := order[1..];
      r := Taken(pending[key]);
      pending := pending - {key};
      assert Contents().jobs == jobs[1..];
    }

    method Close()
      requires Valid()
      modifies this
      ensures Valid() && Contents() == old(Contents()).(closed := true)
    {
      closed := true;
    }
  }

  function Pushed(line: Line, j: Job): Line {
    if line.closed then line else line.(jobs := Enqueue(line.jobs, j))
  }

  function Front(line: Line): Popped {
    if line.jobs != [] then Taken(line.jobs[0]) else if line.closed then Drained else Waiting
  }

  function Rest(line: Line): Line {
    if line.jobs != [] then line.(jobs := line.jobs[1..]) else line
  }

  // Whole runs.

  datatype Step = Push(job: Job) | Pop | Close

  function Next(line: Line, step: Step): Line {
    match step
    case Push(j) => Pushed(line, j)
    case Pop => Rest(line)
    case Close => line.(closed := true)
  }

  function After(line: Line, steps: seq<Step>): Line {
    if steps == [] then line else Next(After(line, steps[..|steps| - 1]), steps[|steps| - 1])
  }

  function Pops(steps: seq<Step>): nat {
    if steps == [] then 0 else Pops(steps[..|steps| - 1]) + if steps[|steps| - 1].Pop? then 1 else 0
  }

  /** What the last push for `key` before the close asked for, `first` if there was none. */
  function Latest(steps: seq<Step>, closed: bool, key: string, first: Job): Job {
    if steps == [] then first
    else
      var last := steps[|steps| - 1];
      if last.Push? && last.job.key == key && !closed && Close !in steps then last.job
      else Latest(steps[..|steps| - 1], closed, key, first)
  }

  lemma {:induction false} StaysOnePerKey(line: Line, steps: seq<Step>)
    requires OnePerKey(line.jobs)
    ensures OnePerKey(After(line, steps).jobs)
    ensures After(line, steps).closed == (line.closed || Close in steps)
  {
    if steps != [] {
      var before := steps[..|steps| - 1];
      StaysOnePerKey(line, before);
      assert steps == before + [steps[|steps| - 1]];
      if steps[|steps| - 1].Push? {
        EnqueueMeans(After(line, before).jobs, steps[|steps| - 1].job);
      }
    }
  }

  /** Nothing overtakes: a key at place `i` moves up one place with every pop, whatever is pushed
      or closed meanwhile, and always carries the latest job pushed for it. So it is the `i`+1-st
      to be popped, and then with that job. */
  lemma {:induction false} MovesUp(line: Line, steps: seq<Step>, i: nat)
    requires OnePerKey(line.jobs) && i < |line.jobs| && Pops(steps) <= i
    ensures i - Pops(steps) < |After(line, steps).jobs|
    ensures After(line, steps).jobs[i - Pops(steps)] == Latest(steps, line.closed, line.jobs[i].key, line.jobs[i])
  {
    if steps != [] {
      var before, last := steps[..|steps| - 1], steps[|steps| - 1];
      MovesUp(line, before, i);
      StaysOnePerKey(line, before);
      LatestKeepsKey(before, line.closed, line.jobs[i].key, line.jobs[i]);
      assert steps == before + [last];
      if last.Push? {
        EnqueueMeans(After(line, before).jobs, last.job);
      }
    }
  }

  lemma {:induction false} LatestKeepsKey(steps: seq<Step>, closed: bool, key: string, first: Job)
    requires first.key == key
    ensures Latest(steps, closed, key, first).key == key
  {
    if steps != [] {
      LatestKeepsKey(steps[..|steps| - 1], closed, key, first);
    }
  }

  /** After the close nothing is added and nothing lost: the waiting jobs are popped, in order,
      and only then does the consumer hear that the queue is drained. */
  lemma {:induction false} ClosedDrains(line: Line, steps: seq<Step>)
    requires line.closed
    ensures After(line, steps).closed
    ensures After(line, steps).jobs == line.jobs[if Pops(steps) < |line.jobs| then Pops(steps) else |line.jobs|..]
    ensures Front(After(line, steps)) == if Pops(steps) < |line.jobs| then Taken(line.jobs[Pops(steps)]) else Drained
  {
    if steps != [] {
      ClosedDrains(line, steps[..|steps| - 1]);
    }
  }

  // The consumer.

  /** One turn of the worker's loop: whether its context is cancelled when it is at the top of the
      loop, and what others do to the queue before it next looks for a job. */
  datatype Turn = Turn(cancelled: bool, arrivals: seq<Step>)

  /** A worker blocked in `pop` does not look at its context. */
  datatype Mode = AtTop | Blocked | Returned

  function Serve(jobs: seq<Job>, now: Line, mode: Mode, turn: Turn): (seq<Job>, Line, Mode) {
    var seen := After(now, turn.arrivals);
    if mode.Returned? || (mode.AtTop? && turn.cancelled) then (jobs, now, Returned)
    else
      match Front(seen)
      case Taken(job) => (jobs + [job], Rest(seen), AtTop)
      case Waiting => (jobs, seen, Blocked)
      case Drained => (jobs, seen, Returned)
  }

  /** The jobs run so far, the queue, and where the worker is. */
  function Served(line: Line, turns: seq<Turn>): (seq<Job>, Line, Mode) {
    if turns == [] then ([], line, AtTop)
    else
      var (jobs, now, mode) := Served(line, turns[..|turns| - 1]);
      Serve(jobs, now, mode, turns[|turns| - 1])
  }

  lemma NoTurns(line: Line)
    ensures Served(line, []) == ([], line, AtTop)
  {
  }

  lemma OneTurn(line: Line, turns: seq<Turn>, i: nat)
    requires i < |turns|
    ensures var (jobs, now, mode) := Served(line, turns[..i]);
            Served(line, turns[..i + 1]) == Serve(jobs, now, mode, turns[i])
  {
    assert turns[..i + 1][..i] == turns[..i];
  }

  method Apply(q: WorkQueue, steps: seq<Step>)
    requires q.Valid()
    modifies q
    ensures q.Valid() && q.Contents() == After(old(q.Contents()), steps)
  {
    for i := 0 to |steps|
      invariant q.Valid() && q.Contents() == After(old(q.Contents()), steps[..i])
    {
      assert steps[..i + 1][..i] == steps[..i];
      match steps[i] {
        case Push(j) => q.Push(j);
        case Pop => var _ := q.Pop();
        case Close => q.Close();
      }
    }
    assert steps[..|steps|] == steps;
  }

  // What the worker owes the queue.

  /** All that others do to the queue, turn after turn. */
  function Arrivals(turns: seq<Turn>): seq<Step> {
    if turns == [] then [] else Arrivals(turns[..|turns| - 1]) + turns[|turns| - 1].arrivals
  }

  /** Nobody but the worker takes anything. */
  ghost predicate OnlyConsumer(turns: seq<Turn>) {
    forall i | 0 <= i < |turns| :: Pop !in turns[i].arrivals
  }

  /** Each of the jobs, its place in the line aside, has been run or is still waiting. */
  ghost predicate RunOrWaiting(asked: seq<Job>, log: seq<Job>, waiting: seq<Job>) {
    forall j | j in asked :: j in log || j in waiting
  }

  lemma {:induction false} AfterBoth(line: Line, a: seq<Step>, b: seq<Step>)
    ensures After(line, a + b) == After(After(line, a), b)
  {
    if b == [] {
      assert a + b == a;
    } else {
      assert (a + b)[..|a + b| - 1] == a + b[..|b| - 1];
      AfterBoth(line, a, b[..|b| - 1]);
    }
  }

  /** Steps that take nothing do to a shorter line what they do to the whole one: whatever waits in the
      whole one afterwards has been taken before or waits in the shorter one. */
  lemma {:induction false} NothingSlips(asked: Line, now: Line, log: seq<Job>, steps: seq<Step>)
    requires OnePerKey(asked.jobs) && OnePerKey(now.jobs) && asked.closed == now.closed && Pop !in steps
    requires RunOrWaiting(asked.jobs, log, now.jobs)
    ensures var a, n := After(asked, steps), After(now, steps);
            OnePerKey(a.jobs) && OnePerKey(n.jobs) && a.closed == n.closed && RunOrWaiting(a.jobs, log, n.jobs)
  {
    StaysOnePerKey(asked, steps);
    StaysOnePerKey(now, steps);
    if steps != [] {
      var before, last := steps[..|steps| - 1], steps[|steps| - 1];
      NothingSlips(asked, now, log, before);
      StaysOnePerKey(asked, before);
      StaysOnePerKey(now, before);
      if last.Push? && !After(now, before).closed {
        EnqueuedSlipsNot(After(asked, before).jobs, After(now, before).jobs, log, last.job);
      }
    }
  }

  lemma EnqueuedSlipsNot(asked: seq<Job>, now: seq<Job>, log: seq<Job>, j: Job)
    requires OnePerKey(asked) && OnePerKey(now) && RunOrWaiting(asked, log, now)
    ensures RunOrWaiting(Enqueue(asked, j), log, Enqueue(now, j))
  {
    EnqueueMeans(asked, j);
    EnqueueKeeps(now, j);
    hide Enqueue;
    forall x | x in Enqueue(asked, j) ensures x in log || x in Enqueue(now, j) {
      var i :| 0 <= i < |Enqueue(asked, j)| && Enqueue(asked, j)[i] == x;
      if x != j {
        assert asked[i] == x && x in asked && x.key != j.key;
      }
    }
  }

  /** One job off the line and onto the log. */
  lemma TakenIsRun(asked: seq<Job>, now: Line, log: seq<Job>)
    requires RunOrWaiting(asked, log, now.jobs)
    ensures match Front(now)
            case Taken(j) => RunOrWaiting(asked, log + [j], Rest(now).jobs)
            case _ => RunOrWaiting(asked, log, Rest(now).jobs)
  {
    if now.jobs != [] {
      assert now.jobs == [now.jobs[0]] + now.jobs[1..];
    }
  }

  /** The worker's own takes among everything else. */
  function Worked(turns: seq<Turn>): seq<Step> {
    if turns == [] then [] else Worked(turns[..|turns| - 1]) + turns[|turns| - 1].arrivals + [Pop]
  }

  lemma {:induction false} LatestBoth(a: seq<Step>, b: seq<Step>, c: seq<Step>, closed: bool, key: string, first: Job)
    requires Latest(a, closed, key, first) == Latest(b, closed, key, first) && (Close in a <==> Close in b)
    ensures Latest(a + c, closed, key, first) == Latest(b + c, closed, key, first)
  {
    if c == [] {
      assert a + c == a && b + c == b;
    } else {
      var front := c[..|c| - 1];
      assert (a + c)[..|a + c| - 1] == a + front && (b + c)[..|b + c| - 1] == b + front;
      LatestBoth(a, b, front, closed, key, first);
    }
  }

  /** Taking changes nothing about what was last asked for. */
  lemma {:induction false} WorkedAsks(turns: seq<Turn>, closed: bool, key: string, first: Job)
    ensures Latest(Worked(turns), closed, key, first) == Latest(Arrivals(turns), closed, key, first)
    ensures Close in Worked(turns) <==> Close in Arrivals(turns)
  {
    if turns != [] {
      var before, last := turns[..|turns| - 1], turns[|turns| - 1];
      WorkedAsks(before, closed, key, first);
      LatestBoth(Worked(before), Arrivals(before), last.arrivals, closed, key, first);
      var steps := Worked(before) + last.arrivals;
      assert (steps + [Pop])[..|steps|] == steps;
    }
  }

  lemma {:induction false} PopsBoth(a: seq<Step>, b: seq<Step>)
    ensures Pops(a + b) == Pops(a) + Pops(b)
  {
    if b == [] {
      assert a + b == a;
    } else {
      assert (a + b)[..|a + b| - 1] == a + b[..|b| - 1];
      PopsBoth(a, b[..|b| - 1]);
    }
  }

  lemma {:induction false} NoPop(steps: seq<Step>)
    requires Pop !in steps
    ensures Pops(steps) == 0
  {
    if steps != [] {
      NoPop(steps[..|steps| - 1]);
    }
  }

  /** The first job of the line the worker looks at in its `i`-th turn, while what waited at the start has not run out. */
  lemma {:induction false} NextInTurn(line: Line, turns: seq<Turn>, i: nat)
    requires OnePerKey(line.jobs) && OnlyConsumer(turns) && i < |turns| && i < |line.jobs|
    ensures Pops(Worked(turns[..i])) == i
    ensures var seen := After(After(line, Worked(turns[..i])), turns[i].arrivals);
            Front(seen) == Taken(Latest(Arrivals(turns[..i + 1]), line.closed, line.jobs[i].key, line.jobs[i]))
  {
    var before := turns[..i];
    WorkedPops(before);
    NoPop(turns[i].arrivals);
    PopsBoth(Worked(before), turns[i].arrivals);
    AfterBoth(line, Worked(before), turns[i].arrivals);
    MovesUp(line, Worked(before) + turns[i].arrivals, i);
    WorkedAsks(before, line.closed, line.jobs[i].key, line.jobs[i]);
    LatestBoth(Worked(before), Arrivals(before), turns[i].arrivals, line.closed, line.jobs[i].key, line.jobs[i]);
    assert turns[..i + 1][..i] == before;
    hide After, Latest, Worked;
  }

  lemma {:induction false} WorkedPops(turns: seq<Turn>)
    requires OnlyConsumer(turns)
    ensures Pops(Worked(turns)) == |turns|
  {
    if turns != [] {
      var before, last := turns[..|turns| - 1], turns[|turns| - 1];
      WorkedPops(before);
      NoPop(last.arrivals);
      PopsBoth(Worked(before), last.arrivals);
      PopsBoth(Worked(before) + last.arrivals, [Pop]);
      assert Pops([Pop]) == 1 by { assert [Pop][..0] == []; assert Pops([]) == 0; }
    }
  }

  /** What was waiting has been run in its order, each with the latest job asked for by its turn. */
  ghost predicate RunInOrder(line: Line, turns: seq<Turn>, log: seq<Job>, n: nat)
    requires n <= |turns|
  {
    forall i | 0 <= i < n && i < |line.jobs| ::
      i < |log| && log[i] == Latest(Arrivals(turns[..i + 1]), line.closed, line.jobs[i].key, line.jobs[i])
  }

  /** After `n` turns nothing is owed: what was asked for has run or waits, and what waited has run in order. */
  ghost predicate Owed(line: Line, turns: seq<Turn>, n: nat, log: seq<Job>, now: Line)
    requires n <= |turns|
  {
    var asked := After(line, Arrivals(turns[..n]));
    && OnePerKey(line.jobs) && OnePerKey(asked.jobs) && OnePerKey(now.jobs) && asked.closed == now.closed
    && now == After(line, Worked(turns[..n])) && |log| <= n
    && RunOrWaiting(asked.jobs, log, now.jobs) && RunInOrder(line, turns, log, n)
  }

  lemma NothingOwed(q: WorkQueue, turns: seq<Turn>)
    requires q.Valid()
    ensures OnlyConsumer(turns) ==> Owed(q.Contents(), turns, 0, [], q.Contents())
  {
    assert turns[..0] == [];
  }

  lemma OneMoreOwed(line: Line, turns: seq<Turn>, n: nat, log: seq<Job>, now: Line)
    requires n < |turns| && OnlyConsumer(turns) && Owed(line, turns, n, log, now)
    ensures var seen := After(now, turns[n].arrivals);
            Owed(line, turns, n + 1, if Front(seen).Taken? then log + [Front(seen).job] else log, Rest(seen))
  {
    hide RunOrWaiting, RunInOrder, After, OnePerKey, Front, Rest;
    var asked, seen := After(line, Arrivals(turns[..n])), After(now, turns[n].arrivals);
    assert turns[..n + 1][..n] == turns[..n];
    NothingSlips(asked, now, log, turns[n].arrivals);
    AfterBoth(line, Arrivals(turns[..n]), turns[n].arrivals);
    TakenIsRun(After(asked, turns[n].arrivals).jobs, seen, log);
    WorkedOn(line, turns, n);
    StillInOrder(line, turns, n, log, seen);
    RestOnePerKey(seen);
  }

  lemma RestOnePerKey(line: Line)
    requires OnePerKey(line.jobs)
    ensures OnePerKey(Rest(line).jobs) && Rest(line).closed == line.closed
  {
  }

  lemma WorkedOn(line: Line, turns: seq<Turn>, n: nat)
    requires n < |turns|
    ensures After(line, Worked(turns[..n + 1])) == Rest(After(After(line, Worked(turns[..n])), turns[n].arrivals))
  {
    assert turns[..n + 1][..n] == turns[..n];
    var steps := Worked(turns[..n]) + turns[n].arrivals;
    assert Worked(turns[..n + 1]) == steps + [Pop];
    assert (steps + [Pop])[..|steps|] == steps;
    AfterBoth(line, Worked(turns[..n]), turns[n].arrivals);
  }

  lemma StillInOrder(line: Line, turns: seq<Turn>, n: nat, log: seq<Job>, seen: Line)
    requires n < |turns| && OnlyConsumer(turns) && OnePerKey(line.jobs) && RunInOrder(line, turns, log, n) && |log| <= n
    requires seen == After(After(line, Worked(turns[..n])), turns[n].arrivals)
    ensures RunInOrder(line, turns, if Front(seen).Taken? then log + [Front(seen).job] else log, n + 1)
  {
    hide Latest, After, Worked, Arrivals, OnlyConsumer, OnePerKey, Front;
    if n < |line.jobs| {
      NextInTurn(line, turns, n);
      assert n > 0 ==> line.jobs[n - 1] in line.jobs && n - 1 < |log|;
    }
  }

  lemma OwedMeans(line: Line, turns: seq<Turn>, n: nat, log: seq<Job>, now: Line)
    requires n <= |turns|
    ensures Owed(line, turns, n, log, now) ==>
              RunOrWaiting(After(line, Arrivals(turns[..n])).jobs, log, now.jobs) && |log| <= n && RunInOrder(line, turns, log, n)
  {
  }

  lemma DrainedMeans(line: Line)
    ensures Front(line).Drained? ==> Rest(line) == Line([], true)
  {
  }

  /** The single consumer: one job at a time, to completion, until its context is cancelled or the
      queue is closed and drained. `log` is the order in which jobs ran, `n` the number of turns the worker took. */
  method RunWorker(q: WorkQueue, turns: seq<Turn>) returns (log: seq<Job>, ghost n: nat)
    requires q.Valid()
    modifies q
    ensures q.Valid() && var (jobs, line, _) := Served(old(q.Contents()), turns); log == jobs && q.Contents() == line
    // It goes on until it is cancelled, or the queue is closed and empty.
    ensures n <= |turns| && (n < |turns| ==> turns[n].cancelled || q.Contents() == Line([], true))
    // No job is lost: whatever was last asked for under a key has run or is waiting, and no turn runs two.
    ensures OnlyConsumer(turns) ==>
              RunOrWaiting(After(old(q.Contents()), Arrivals(turns[..n])).jobs, log, q.Contents().jobs) && |log| <= n
    // What was waiting runs first, in order.
    ensures OnlyConsumer(turns) ==> RunInOrder(old(q.Contents()), turns, log, n)
  {
    hide Served, After, WorkQueue.Valid, WorkQueue.Contents, RunOrWaiting, OnlyConsumer, RunInOrder, Arrivals, Worked, Owed;
    log, n := [], 0;
    var blocked := false;
    ghost var line := q.Contents();
    assert turns[..0] == [];
    NoTurns(line);
    NothingOwed(q, turns);
    for i := 0 to |turns|
      invariant q.Valid() && Served(line, turns[..i]) == (log, q.Contents(), if blocked then Blocked else AtTop)
      invariant n == i && (OnlyConsumer(turns) ==> Owed(line, turns, i, log, q.Contents()))
    {
      OneTurn(line, turns, i);
      if !blocked && turns[i].cancelled {
        ReturnedStays(line, turns, i + 1);
        OwedMeans(line, turns, i, log, q.Contents());
        return;
      }
      ghost var now := q.Contents();
      Apply(q, turns[i].arrivals);
      var r := q.Pop();
      if OnlyConsumer(turns) {
        OneMoreOwed(line, turns, i, log, now);
      }
      n := n + 1;
      if r.Drained? {
        ReturnedStays(line, turns, i + 1);
        DrainedMeans(After(now, turns[i].arrivals));
        OwedMeans(line, turns, i + 1, log, q.Contents());
        return;
      }
      blocked := r.Waiting?;
      if r.Taken? {
        log := log + [r.job];
      }
    }
    assert turns[..|turns|] == turns;
    OwedMeans(line, turns, |turns|, log, q.Contents());
  }

  lemma {:induction false} ReturnedStays(line: Line, turns: seq<Turn>, i: nat)
    requires i <= |turns| && Served(line, turns[..i]).2.Returned?
    ensures Served(line, turns) == Served(line, turns[..i])
    decreases |turns|
  {
    if i < |turns| {
      assert turns[..|turns| - 1][..i] == turns[..i];
      ReturnedStays(line, turns[..|turns| - 1], i);
    } else {
      assert turns[..i] == turns;
    }
  }

  /** A worker that is not cancelled runs everything that was waiting at the close, each once and
      in order, as soon as it has had that many turns. */
  lemma {:induction false} ClosedQueueIsRun(line: Line, turns: seq<Turn>)
    requires line.closed && forall i | 0 <= i < |turns| :: !turns[i].cancelled && Pops(turns[i].arrivals) == 0
    ensures Served(line, turns).0 == line.jobs[..if |turns| < |line.jobs| then |turns| else |line.jobs|]
    ensures Served(line, turns).1 == line.(jobs := line.jobs[if |turns| < |line.jobs| then |turns| else |line.jobs|..])
    ensures Served(line, turns).2 == if |turns| <= |line.jobs| then AtTop else Returned
  {
    if turns != [] {
      var before := turns[..|turns| - 1];
      ClosedQueueIsRun(line, before);
      ClosedDrains(Served(line, before).1, turns[|turns| - 1].arrivals);
    }
  }

  /** Cancelling stops a worker at the top of its loop at once, but one that is blocked takes and runs
      the next job that comes first. */
  lemma CancelledTurn(line: Line, turns: seq<Turn>, arrivals: seq<Step>)
    requires !Served(line, turns).2.Returned?
    ensures var (jobs, now, mode) := Served(line, turns);
            var next := Served(line, turns + [Turn(true, arrivals)]);
            if mode.AtTop? then next == (jobs, now, Returned)
            else Front(After(now, arrivals)).Taken? ==> next.0 == jobs + [Front(After(now, arrivals)).job] && next.2 == AtTop
  {
    assert (turns + [Turn(true, arrivals)])[..|turns|] == turns;
  }
}
