/** The go-live poll: probe with exponential backoff until the outpost serves the host or the
    window closes. */
module GoLive {
  import opened Options
  import opened Authentik
  import opened Desired

  const SECOND: nat := 1_000_000_000
  const INITIAL: nat := 3 * SECOND
  const MAX: nat := 15 * SECOND
  const DEFAULT_TIMEOUT: nat := 180 * SECOND

  function Pow2(k: nat): nat {
    if k == 0 then 1 else 2 * Pow2(k - 1)
  }

  /** The wait before probe `k + 1`: doubling from the initial interval, capped. */
  function Interval(k: nat): nat {
    if INITIAL * Pow2(k) < MAX then INITIAL * Pow2(k) else MAX
  }

  /** The time of probe `k`, counted from the start of the poll. */
  function Elapsed(k: nat): nat {
    if k == 0 then 0 else Elapsed(k - 1) + Interval(k - 1)
  }

  /** The cap is reached with the fourth wait and never left. */
  lemma {:induction false} CappedFromThird(k: nat)
    ensures k < 3 ==> Interval(k) == [INITIAL, 2 * INITIAL, 4 * INITIAL][k]
    ensures k >= 3 ==> Pow2(k) >= 8 && Interval(k) == MAX && Elapsed(k) == 21 * SECOND + (k - 3) * MAX
  {
    if k > 0 {
      CappedFromThird(k - 1);
      if k >= 3 {
        assert Pow2(3) == 8 && Elapsed(3) == 21 * SECOND;
      }
    }
  }

  /** Doubling up to the cap steps from one wait to the next. */
  lemma DoublingReaches(k: nat)
    ensures Interval(k + 1) == if 2 * Interval(k) < MAX then 2 * Interval(k) else MAX
  {
    CappedFromThird(k);
    CappedFromThird(k + 1);
  }

  lemma ElapsedNext(k: nat)
    ensures Elapsed(0) == 0 && Elapsed(k + 1) == Elapsed(k) + Interval(k)
  {
  }

  lemma IntervalBounds(k: nat)
    ensures INITIAL <= Interval(k) <= MAX
  {
    CappedFromThird(k);
  }

  lemma {:induction false} ElapsedMonotone(j: nat, k: nat)
    requires j <= k
    ensures Elapsed(j) + INITIAL * (k - j) <= Elapsed(k)
  {
    if j < k {
      ElapsedMonotone(j, k - 1);
      IntervalBounds(k - 1);
    }
  }

  /** The probe at which a poll that is never served gives up: the first one not before the
      deadline. */
  function LastProbe(timeout: nat, k: nat := 1): (n: nat)
    requires 0 < k && (k == 1 || Elapsed(k - 1) < timeout)
    ensures k <= n && Elapsed(n) >= timeout && (n == 1 || Elapsed(n - 1) < timeout)
    decreases if Elapsed(k) < timeout then timeout - Elapsed(k) else 0
  {
    IntervalBounds(k);
    if Elapsed(k) < timeout then LastProbe(timeout, k + 1) else k
  }

  lemma LastProbeIsFirst(timeout: nat, k: nat)
    requires 0 < timeout && Elapsed(k) >= timeout
    ensures LastProbe(timeout) <= k
  {
    var n := LastProbe(timeout);
    if k < n {
      ElapsedMonotone(k, n - 1);
    }
  }

  /** However long the window, the poll overshoots it by less than one capped wait, and makes
      at most 3 + ceil((timeout - 21s) / 15s) probes. */
  lemma PollIsBounded(timeout: nat)
    requires 0 < timeout
    ensures timeout <= Elapsed(LastProbe(timeout)) < timeout + MAX
    ensures timeout >= 21 * SECOND ==> LastProbe(timeout) <= 3 + (timeout - 21 * SECOND + MAX - 1) / MAX
  {
    var n := LastProbe(timeout);
    IntervalBounds(n - 1);
    if timeout >= 21 * SECOND && n > 3 {
      CappedFromThird(n - 1);
      assert (n - 4) * MAX < timeout - 21 * SECOND;
    }
  }

  /** Some probe falls within one capped wait of any moment of the window. */
  lemma ProbeSoonAfter(timeout: nat, moment: nat) returns (k: nat)
    requires 0 < timeout && moment <= timeout
    ensures 1 <= k <= LastProbe(timeout) && moment <= Elapsed(k) < moment + MAX
    ensures forall j | 1 <= j < k :: Elapsed(j) < moment
  {
    k := 1;
    IntervalBounds(0);
    assert Elapsed(1) == INITIAL by { CappedFromThird(0); }
    if moment > 0 {
      k := LastProbe(moment);
      PollIsBounded(moment);
      LastProbeIsFirst(moment, LastProbe(timeout));
      forall j | 1 <= j < k ensures Elapsed(j) < moment {
        ElapsedMonotone(j, k - 1);
      }
    }
  }

  function Timeout(cfg: Config): (t: nat)
    ensures 0 < t && t == if cfg.goLiveTimeout > 0 then cfg.goLiveTimeout else 180 * SECOND
  {
    if cfg.goLiveTimeout > 0 then cfg.goLiveTimeout else DEFAULT_TIMEOUT
  }

  ghost predicate ServedAt(env: Env, host: string, start: nat, k: nat) {
    env.serves(host, start + Elapsed(k))
  }

  ghost predicate ServedFrom(env: Env, host: string, moment: nat) {
    forall c: nat | moment <= c :: env.serves(host, c)
  }

  /** Every sleep from `clock` on runs its full length. */
  ghost predicate Awake(env: Env, clock: nat) {
    forall c: nat | clock <= c :: env.wakes(c)
  }

  /** What a poll started at `start` may report after so many probes: live when the last probe
      said so, stale when every probe of the full window said no. */
  ghost predicate PollOutcome(env: Env, host: string, start: nat, timeout: nat, probes: nat, err: Option<Code>)
    requires 0 < timeout
  {
    && probes <= LastProbe(timeout)
    && (forall k | 0 < k < probes :: !ServedAt(env, host, start, k))
    && match err
       case None => 0 < probes && host != "" && ServedAt(env, host, start, probes)
       case Some(GoLiveStale) => probes == LastProbe(timeout) && !ServedAt(env, host, start, probes)
       case Some(code) => code == GoLiveUnverified
  }

  /** A host served from any moment of the window on is never reported stale, and unless a probe
      or a sleep fails it is reported live less than one capped wait after that moment. */
  lemma ServedIsReportedLive(env: Env, host: string, start: nat, timeout: nat, probes: nat, err: Option<Code>, moment: nat)
    requires 0 < timeout && moment <= timeout
    requires PollOutcome(env, host, start, timeout, probes, err) && ServedFrom(env, host, start + moment)
    ensures err != Some(GoLiveStale)
    ensures err.None? ==> Elapsed(probes) < moment + MAX
  {
    var k := ProbeSoonAfter(timeout, moment);
    assert ServedAt(env, host, start, k);
    if probes <= k {
      ElapsedMonotone(probes, k);
    }
    PollIsBounded(timeout);
    assert moment <= Elapsed(probes) ==> ServedAt(env, host, start, probes);
  }

  /** A host that is served from some moment of the window on is reported live, and less than one capped
      wait after that moment. */
  ghost predicate LiveInTime(env: Env, host: string, start: nat, timeout: nat, err: Option<Code>, now: nat) {
    forall moment: nat | start <= moment <= start + timeout && ServedFrom(env, host, moment) :: err.None? && now < moment + MAX
  }

  /** No probe of the whole window, the first one included, found the host served. */
  ghost predicate NeverServed(env: Env, host: string, start: nat, timeout: nat)
    requires 0 < timeout
  {
    forall k | 0 <= k <= LastProbe(timeout) :: !env.serves(host, start + Elapsed(k))
  }

  /** A poll after a first probe that said no. */
  lemma PollReports(env: Env, host: string, start: nat, timeout: nat, probes: nat, err: Option<Code>)
    requires 0 < timeout && !env.serves(host, start) && PollOutcome(env, host, start, timeout, probes, err)
    ensures err != Some(GoLiveUnverified) ==> LiveInTime(env, host, start, timeout, err, start + Elapsed(probes))
    ensures err == Some(GoLiveStale) ==> NeverServed(env, host, start, timeout)
  {
    forall moment: nat | start <= moment <= start + timeout && ServedFrom(env, host, moment)
      ensures err != Some(GoLiveStale) && (err.None? ==> start + Elapsed(probes) < moment + MAX)
    {
      ServedIsReportedLive(env, host, start, timeout, probes, err, moment - start);
    }
    if err == Some(GoLiveStale) {
      forall k | 0 <= k <= LastProbe(timeout) ensures !env.serves(host, start + Elapsed(k)) {
        if 0 < k {
          assert !ServedAt(env, host, start, k);
        }
      }
    }
  }

  /** Served at once is live at once. */
  lemma LiveAtOnce(env: Env, host: string, start: nat, timeout: nat)
    ensures LiveInTime(env, host, start, timeout, None, start)
  {
  }

  /** The clock moves only by sleeping; `probes` is how many probes were made. */
  method PollGoLive(api: Server, cfg: Config, host: string, res: Result)
    returns (err: Option<Code>, ghost probes: nat)
    requires api.Valid()
    modifies api`calls, api`trace, api`clock, res`issues
    ensures old(api.trace) <= api.trace && Reads(api.trace, |old(api.trace)|, api.tables)
    ensures Reported(old(res.issues), res.issues, err)
    ensures PollOutcome(api.env, host, old(api.clock), Timeout(cfg), probes, err)
    ensures api.clock == old(api.clock) + Elapsed(probes) < old(api.clock) + Timeout(cfg) + MAX
    ensures api.calls >= old(api.calls)
    ensures Calm(api.env, old(api.calls)) && Awake(api.env, old(api.clock)) && host != "" ==> err != Some(GoLiveUnverified)
  {
    hide WellFormed, Errors, Pow2, Interval, LastProbe, Elapsed;
    var timeout := Timeout(cfg);
    var deadline := api.clock + timeout;
    var interval := INITIAL;
    ghost var start, n := api.clock, LastProbe(timeout);
    probes := 0;
    PollIsBounded(timeout);
    CappedFromThird(0);
    ElapsedNext(0);
    while true
      invariant probes < n && api.clock == start + Elapsed(probes) && interval == Interval(probes)
      invariant api.clock < deadline
      invariant old(api.trace) <= api.trace && Reads(api.trace, |old(api.trace)|, api.tables)
      invariant api.calls == old(api.calls) + probes && res.issues == old(res.issues)
      invariant forall k | 0 < k <= probes :: !ServedAt(api.env, host, start, k)
      decreases n - probes
    {
      var woke := api.Sleep(interval);
      if !woke {
        err := res.Fail(GoLiveUnverified);
        return;
      }
      var serves := api.Probe(host);
      probes := probes + 1;
      ElapsedNext(probes - 1);
      ElapsedMonotone(probes, n);
      if serves.Unreachable? {
        err := res.Fail(GoLiveUnverified);
        return;
      }
      assert serves.value == ServedAt(api.env, host, start, probes);
      if serves.value {
        err := None;
        return;
      }
      if api.clock >= deadline {
        err := res.Fail(GoLiveStale);
        LastProbeIsFirst(timeout, probes);
        return;
      }
      DoublingReaches(probes - 1);
      IntervalBounds(probes - 1);
      if interval < MAX {
        interval := interval * 2;
        if interval > MAX {
          interval := MAX;
        }
      }
    }
  }
}
