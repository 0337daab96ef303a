/** The sliding window of a worker pool: at most 30 requests in any 60 seconds, kept as the ticks of the
    recent requests and pruned from the front.  Times are seconds of a monotonic clock. */
module RateWindow {
  const SPAN: real := 60.0
  const RATE_PER_MINUTE: nat := 30

  /** The ticks that are still inside the window. */
  function Pruned(ticks: seq<real>, started: real): seq<real> {
    if ticks != [] && started - ticks[0] >= SPAN then Pruned(ticks[1..], started) else ticks
  }

  /** How many requests of the whole log lie in the window before `started`: the meaning of the limit. */
  function Recent(log: seq<real>, started: real): nat {
    if log == [] then 0
    else Recent(log[..|log| - 1], started) + if started - log[|log| - 1] < 60.0 then 1 else 0
  }

  predicate Ordered(log: seq<real>) {
    forall i, j | 0 <= i < j < |log| :: log[i] <= log[j]
  }

  /** The ticks are the end of the log, and everything before them has left the window by `clock`. */
  predicate Covers(ticks: seq<real>, log: seq<real>, clock: real) {
    && |ticks| <= |log| && ticks == log[|log| - |ticks|..]
    && Ordered(log) && (log != [] ==> log[|log| - 1] <= clock)
    && forall i | 0 <= i < |log| - |ticks| :: log[i] + SPAN <= clock
  }

  /** No 31 requests within the span, anywhere in the log. */
  predicate Spread(log: seq<real>) {
    forall i | 0 <= i && i + 30 < |log| :: log[i] + 60.0 <= log[i + 30]
  }

  lemma {:induction false} PruneKeeps(ticks: seq<real>, log: seq<real>, clock: real, started: real)
    requires Covers(ticks, log, clock) && clock <= started
    ensures Covers(Pruned(ticks, started), log, started)
    ensures Pruned(ticks, started) != [] ==> started - Pruned(ticks, started)[0] < SPAN
    decreases |ticks|
  {
    if ticks != [] && started - ticks[0] >= SPAN {
      PruneKeeps(ticks[1..], log, started, started);
    }
  }

  lemma {:induction false} RecentIsTheEnd(log: seq<real>, n: nat, started: real)
    requires n <= |log| && forall i | 0 <= i < |log| - n :: log[i] + SPAN <= started
    requires forall i | |log| - n <= i < |log| :: started - log[i] < SPAN
    ensures Recent(log, started) == n
    decreases |log|
  {
    if log != [] {
      RecentIsTheEnd(log[..|log| - 1], if n == 0 then 0 else n - 1, started);
    }
  }

  /** The pruned ticks give the same decision as the whole log. */
  lemma PrunedIsRecent(ticks: seq<real>, log: seq<real>, clock: real, started: real)
    requires Covers(ticks, log, clock) && clock <= started
    ensures |Pruned(ticks, started)| == Recent(log, started)
  {
    PruneKeeps(ticks, log, clock, started);
    var kept := Pruned(ticks, started);
    forall i | |log| - |kept| <= i < |log| ensures started - log[i] < SPAN {
      assert kept[0] == log[|log| - |kept|] <= log[i];
    }
    RecentIsTheEnd(log, |kept|, started);
  }

  /** One more request after the decision: the ticks still cover the log, and it stays spread. */
  lemma AdmitKeeps(ticks: seq<real>, log: seq<real>, clock: real, started: real)
    requires Covers(ticks, log, clock) && clock <= started && Spread(log)
    requires |Pruned(ticks, started)| < RATE_PER_MINUTE
    ensures Covers(Pruned(ticks, started) + [started], log + [started], started) && Spread(log + [started])
  {
    PruneKeeps(ticks, log, clock, started);
    CoversAppend(Pruned(ticks, started), log, started);
    SpreadAppend(Pruned(ticks, started), log, started);
    hide Covers, Spread, Pruned;
  }

  lemma CoversAppend(kept: seq<real>, log: seq<real>, started: real)
    requires Covers(kept, log, started)
    ensures Covers(kept + [started], log + [started], started)
  {
    var all := log + [started];
    forall i | 0 <= i < |log| ensures log[i] <= started {
      assert log[i] <= log[|log| - 1];
    }
    assert all[|all| - |kept| - 1..] == kept + [started];
  }

  lemma SpreadAppend(kept: seq<real>, log: seq<real>, started: real)
    requires Covers(kept, log, started) && Spread(log) && |kept| < RATE_PER_MINUTE
    ensures Spread(log + [started])
  {
    var all := log + [started];
    forall i | 0 <= i && i + RATE_PER_MINUTE < |all| ensures all[i] + SPAN <= all[i + RATE_PER_MINUTE] {
      if i + RATE_PER_MINUTE == |log| {
        assert i < |log| - |kept|;
      } else {
        assert log[i] + SPAN <= log[i + RATE_PER_MINUTE];
      }
    }
  }

  /** The source's pruning loop. */
  method Prune(ticks: seq<real>, started: real) returns (kept: seq<real>)
    ensures kept == Pruned(ticks, started)
  {
    kept := ticks;
    while kept != [] && started - kept[0] >= SPAN
      invariant Pruned(kept, started) == Pruned(ticks, started)
      decreases |kept|
    {
      kept := kept[1..];
    }
  }

  // ----- whole histories -------------------------------------------------------------------

  /** One request at a time; it may still be turned away for another reason after the rate. */
  datatype Attempt = Attempt(started: real, otherwiseFine: bool)

  /** The ticks and the log after these attempts. */
  function Replay(attempts: seq<Attempt>): (seq<real>, seq<real>) {
    if attempts == [] then ([], [])
    else
      var (ticks, log) := Replay(attempts[..|attempts| - 1]);
      var a := attempts[|attempts| - 1];
      var kept := Pruned(ticks, a.started);
      if |kept| < RATE_PER_MINUTE && a.otherwiseFine then (kept + [a.started], log + [a.started]) else (kept, log)
  }

  predicate Monotonic(attempts: seq<Attempt>) {
    forall i | 0 < i < |attempts| :: attempts[i - 1].started <= attempts[i].started
  }

  function ClockOf(attempts: seq<Attempt>): real {
    if attempts == [] then 0.0 else attempts[|attempts| - 1].started
  }

  lemma EmptyCovered(clock: real)
    ensures Covers([], [], clock) && Spread([])
  {
  }

  lemma {:induction false} ReplayCovers(attempts: seq<Attempt>)
    requires Monotonic(attempts)
    ensures Covers(Replay(attempts).0, Replay(attempts).1, ClockOf(attempts)) && Spread(Replay(attempts).1)
  {
    if attempts != [] {
      var before, a := attempts[..|attempts| - 1], attempts[|attempts| - 1];
      ReplayCovers(before);
      hide Covers, Spread, Pruned;
      var (ticks, log) := Replay(before);
      var clock := if before == [] then a.started else ClockOf(before);
      assert before != [] ==> before[|before| - 1] == attempts[|attempts| - 2];
      if before == [] {
        EmptyCovered(clock);
      }
      PruneKeeps(ticks, log, clock, a.started);
      if |Pruned(ticks, a.started)| < RATE_PER_MINUTE {
        AdmitKeeps(ticks, log, clock, a.started);
      }
    }
  }

  /** Over every history: any admitted request and the 30th admitted after it are at least 60 seconds apart, and
      the next request passes the rate check exactly if fewer than 30 of all admitted ones lie in the last
      60 seconds. */
  lemma WindowHolds(attempts: seq<Attempt>, next: real)
    requires Monotonic(attempts) && (attempts != [] ==> ClockOf(attempts) <= next)
    ensures Spread(Replay(attempts).1)
    ensures |Pruned(Replay(attempts).0, next)| < RATE_PER_MINUTE <==> Recent(Replay(attempts).1, next) < 30
  {
    ReplayCovers(attempts);
    PrunedIsRecent(Replay(attempts).0, Replay(attempts).1, if attempts == [] then next else ClockOf(attempts), next);
  }
}
