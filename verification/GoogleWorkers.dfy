/** The door of the Google reporting pool: one rate window per source, one queue bound for all, and a daily
    cap of writes per source that is counted before the tick is appended. */
module GoogleWorkers {
  import opened Wrappers
  import opened RateWindow

  type Code = string
  type Day = nat

  datatype Source = Gsc | Ga4

  type WriteKey = (Source, Day)

  const WRITE_CAP_PER_DAY: nat := 20
  const CAPACITY: int := 6

  /** `counts` is a write that is not a dry run; `pending` is how many requests are inside. */
  datatype Arrival = Arrival(source: Source, counts: bool, started: real, today: Day, pending: int)

  datatype Door = Door(rate: map<Source, seq<real>>, writes: map<WriteKey, nat>)

  predicate DoorOk(door: Door) {
    forall source: Source :: source in door.rate
  }

  const NEW_DOOR: Door := Door(map[Gsc := [], Ga4 := []], map[])

  lemma NewDoorOk()
    ensures DoorOk(NEW_DOOR)
  {
    forall source: Source ensures source in NEW_DOOR.rate {
      match source case Gsc => case Ga4 =>
    }
  }

  function OfToday(writes: map<WriteKey, nat>, today: Day): map<WriteKey, nat> {
    map key | key in writes && key.1 == today :: writes[key]
  }

  function Written(writes: map<WriteKey, nat>, key: WriteKey): nat {
    if key in writes then writes[key] else 0
  }

  /** The checks in their order; whatever an earlier check has changed stays changed. */
  function Entered(door: Door, a: Arrival): (r: (Door, Result<(), Code>))
    requires DoorOk(door)
    ensures DoorOk(r.0)
  {
    var kept := Pruned(door.rate[a.source], a.started);
    var pruned := door.(rate := door.rate[a.source := kept]);
    if |kept| >= RATE_PER_MINUTE then (pruned, Err("source_rate_limited"))
    else if a.pending >= CAPACITY then (pruned, Err("queue_full"))
    else
      var key := (a.source, a.today);
      var today := OfToday(door.writes, a.today);
      if a.counts && Written(today, key) >= WRITE_CAP_PER_DAY then (pruned.(writes := today), Err("write_cap_reached"))
      else
        (Door(door.rate[a.source := kept + [a.started]],
              if a.counts then today[key := Written(today, key) + 1] else door.writes), Ok(()))
  }

  class WorkerPool {
    var rate: map<Source, seq<real>>
    var writeAttempts: map<WriteKey, nat>
    var pending: int

    constructor ()
      ensures View() == NEW_DOOR && pending == 0
    {
      rate, writeAttempts, pending := map[Gsc := [], Ga4 := []], map[], 0;
    }

    ghost function View(): Door
      reads this
    {
      Door(rate, writeAttempts)
    }

    /** `_count_write`: the attempt is counted before the call. */
    method CountWrite(source: Source, day: Day) returns (r: Result<(), Code>)
      modifies this`writeAttempts
      ensures var key, today := (source, day), OfToday(old(writeAttempts), day);
              if Written(today, key) >= WRITE_CAP_PER_DAY then
                writeAttempts == today && r == Err("write_cap_reached")
              else writeAttempts == today[key := Written(today, key) + 1] && r == Ok(())
    {
      writeAttempts := OfToday(writeAttempts, day);
      var key := (source, day);
      if Written(writeAttempts, key) >= WRITE_CAP_PER_DAY {
        return Err("write_cap_reached");
      }
      writeAttempts := writeAttempts[key := Written(writeAttempts, key) + 1];
      return Ok(());
    }

    /** The start of `run`, up to the wait for a slot. */
    method Enter(source: Source, write: bool, dryRun: bool, started: real, today: Day) returns (r: Result<(), Code>)
      requires DoorOk(View())
      modifies this
      ensures (View(), r) == Entered(old(View()), Arrival(source, write && !dryRun, started, today, old(pending)))
      ensures pending == old(pending) + if r.Ok? then 1 else 0
    {
      var ticks := RateWindow.Prune(rate[source], started);
      rate := rate[source := ticks];
      if |ticks| >= RATE_PER_MINUTE {
        return Err("source_rate_limited");
      }
      if pending >= CAPACITY {
        return Err("queue_full");
      }
      if write && !dryRun {
        var counted := CountWrite(source, today);
        if counted.Err? {
          return counted;
        }
      }
      rate := rate[source := rate[source] + [started]];
      assert rate == old(rate)[source := ticks + [started]];
      pending := pending + 1;
      return Ok(());
    }
  }

  // ----- whole histories -------------------------------------------------------------------

  function DoorAfter(arrivals: seq<Arrival>): (door: Door)
    ensures DoorOk(door)
  {
    if arrivals == [] then
      NewDoorOk();
      NEW_DOOR
    else Entered(DoorAfter(arrivals[..|arrivals| - 1]), arrivals[|arrivals| - 1]).0
  }

  /** The admitted arrivals. */
  function Admitted(arrivals: seq<Arrival>): seq<Arrival> {
    if arrivals == [] then []
    else
      var before, last := arrivals[..|arrivals| - 1], arrivals[|arrivals| - 1];
      Admitted(before) + if Entered(DoorAfter(before), last).1.Ok? then [last] else []
  }

  /** The ticks of one source. */
  function TicksOf(log: seq<Arrival>, source: Source): seq<real> {
    if log == [] then []
    else
      var last := log[|log| - 1];
      TicksOf(log[..|log| - 1], source) + if last.source == source then [last.started] else []
  }

  /** The counted writes of one source on one day. */
  function WritesOn(log: seq<Arrival>, key: WriteKey): nat {
    if log == [] then 0
    else
      var last := log[|log| - 1];
      WritesOn(log[..|log| - 1], key) + if last.counts && (last.source, last.today) == key then 1 else 0
  }

  predicate Forward(arrivals: seq<Arrival>) {
    forall i | 0 < i < |arrivals| ::
      arrivals[i - 1].started <= arrivals[i].started && arrivals[i - 1].today <= arrivals[i].today
  }

  ghost predicate Inv(door: Door, log: seq<Arrival>, clock: real, day: Day)
    requires DoorOk(door)
  {
    && (forall source :: WindowInv(door, log, clock, source))
    && (forall key: WriteKey :: key.1 > day ==> key !in door.writes && WritesOn(log, key) == 0)
    && (forall key: WriteKey :: WritesOn(log, key) <= WRITE_CAP_PER_DAY)
    && (forall key: WriteKey :: key.1 == day ==> Written(door.writes, key) == WritesOn(log, key))
  }

  predicate WindowInv(door: Door, log: seq<Arrival>, clock: real, source: Source)
    requires DoorOk(door)
  {
    Covers(door.rate[source], TicksOf(log, source), clock) && Spread(TicksOf(log, source))
  }

  lemma LogAppend(log: seq<Arrival>, a: Arrival, source: Source, key: WriteKey)
    ensures TicksOf(log + [a], source) == TicksOf(log, source) + if a.source == source then [a.started] else []
    ensures WritesOn(log + [a], key) == WritesOn(log, key) + if a.counts && (a.source, a.today) == key then 1 else 0
  {
    assert (log + [a])[..|log|] == log;
  }

  /** What an arrival does to the ticks of a source. */
  lemma EnteredRate(door: Door, a: Arrival, source: Source)
    requires DoorOk(door)
    ensures var (after, r) := Entered(door, a);
            var kept := Pruned(door.rate[source], a.started);
            && (r.Ok? && source == a.source ==> |kept| < RATE_PER_MINUTE)
            && after.rate[source] ==
                 if source != a.source then door.rate[source] else if r.Ok? then kept + [a.started] else kept
  {
    hide Pruned, OfToday, Written;
  }

  lemma WindowStep(door: Door, log: seq<Arrival>, clock: real, a: Arrival, source: Source)
    requires DoorOk(door) && clock <= a.started && WindowInv(door, log, clock, source)
    ensures var (after, r) := Entered(door, a);
            WindowInv(after, if r.Ok? then log + [a] else log, a.started, source)
  {
    hide Covers, Spread, Pruned, OfToday, TicksOf, Entered;
    LogAppend(log, a, source, (source, 0));
    EnteredRate(door, a, source);
    var ticks := TicksOf(log, source);
    CoversLater(door.rate[source], ticks, clock, a.started);
    PruneKeeps(door.rate[source], ticks, clock, a.started);
    if |Pruned(door.rate[source], a.started)| < RATE_PER_MINUTE {
      AdmitKeeps(door.rate[source], ticks, clock, a.started);
    }
    assert TicksOf(log, source) + [] == TicksOf(log, source);
  }

  lemma CoversLater(ticks: seq<real>, log: seq<real>, clock: real, later: real)
    requires Covers(ticks, log, clock) && clock <= later
    ensures Covers(ticks, log, later)
  {
  }

  lemma WritesStep(door: Door, log: seq<Arrival>, clock: real, day: Day, a: Arrival, key: WriteKey)
    requires DoorOk(door) && Inv(door, log, clock, day) && day <= a.today
    ensures var (after, r) := Entered(door, a);
            var grown := if r.Ok? then log + [a] else log;
            && (key.1 > a.today ==> key !in after.writes && WritesOn(grown, key) == 0)
            && WritesOn(grown, key) <= WRITE_CAP_PER_DAY
            && (key.1 == a.today ==> Written(after.writes, key) == WritesOn(grown, key))
  {
    hide Covers, Spread, Pruned, WindowInv, WritesOn, TicksOf;
    LogAppend(log, a, a.source, key);
  }

  lemma NothingKept(clock: real, day: Day)
    ensures DoorOk(NEW_DOOR) && Inv(NEW_DOOR, [], clock, day)
  {
    NewDoorOk();
    forall source: Source ensures WindowInv(NEW_DOOR, [], clock, source) {
      match source case Gsc => case Ga4 =>
    }
  }

  lemma {:induction false} DoorKeeps(arrivals: seq<Arrival>)
    requires Forward(arrivals) && arrivals != []
    ensures Inv(DoorAfter(arrivals), Admitted(arrivals), arrivals[|arrivals| - 1].started, arrivals[|arrivals| - 1].today)
    decreases |arrivals|
  {
    var before, a := arrivals[..|arrivals| - 1], arrivals[|arrivals| - 1];
    hide Entered, Inv;
    var clock, day := a.started, a.today;
    if before == [] {
      NothingKept(clock, day);
    } else {
      DoorKeeps(before);
      assert before[|before| - 1] == arrivals[|arrivals| - 2];
      clock, day := before[|before| - 1].started, before[|before| - 1].today;
    }
    assert Admitted(before) + [] == Admitted(before);
    DoorStep(DoorAfter(before), Admitted(before), clock, day, a);
  }

  /** One more arrival. */
  lemma DoorStep(door: Door, log: seq<Arrival>, clock: real, day: Day, a: Arrival)
    requires DoorOk(door) && Inv(door, log, clock, day) && clock <= a.started && day <= a.today
    ensures var (after, r) := Entered(door, a);
            Inv(after, if r.Ok? then log + [a] else log, a.started, a.today)
  {
    hide Entered, WritesOn, TicksOf, Written, WindowInv, Covers, Spread;
    var (after, r) := Entered(door, a);
    var grown := if r.Ok? then log + [a] else log;
    forall source ensures WindowInv(after, grown, a.started, source) {
      WindowStep(door, log, clock, a, source);
    }
    forall key: WriteKey
      ensures key.1 > a.today ==> key !in after.writes && WritesOn(grown, key) == 0
      ensures WritesOn(grown, key) <= WRITE_CAP_PER_DAY
      ensures key.1 == a.today ==> Written(after.writes, key) == WritesOn(grown, key)
    {
      WritesStep(door, log, clock, day, a, key);
    }
  }

  /** Over every history each source keeps its own window, and no source writes more than 20 times on a day. */
  lemma SourcesKeepTheirLimits(arrivals: seq<Arrival>, source: Source, day: Day)
    requires Forward(arrivals)
    ensures Spread(TicksOf(Admitted(arrivals), source))
    ensures WritesOn(Admitted(arrivals), (source, day)) <= 20
  {
    if arrivals != [] {
      DoorKeeps(arrivals);
      var last := arrivals[|arrivals| - 1];
      assert WindowInv(DoorAfter(arrivals), Admitted(arrivals), last.started, source);
    }
    hide DoorAfter;
  }

  /** The decision, said of the full history: 30 requests of the source in the last minute, six inside, or 20 writes of
      the source today, in this order. */
  function DecisionOf(log: seq<Arrival>, a: Arrival): Result<(), Code> {
    if Recent(TicksOf(log, a.source), a.started) >= 30 then Err("source_rate_limited")
    else if a.pending >= 6 then Err("queue_full")
    else if a.counts && WritesOn(log, (a.source, a.today)) >= 20 then Err("write_cap_reached")
    else Ok(())
  }

  /** The pruned windows and the counters of today decide like the full history. */
  lemma DecisionIsExact(arrivals: seq<Arrival>, a: Arrival)
    requires Forward(arrivals + [a])
    ensures Entered(DoorAfter(arrivals), a).1 == DecisionOf(Admitted(arrivals), a)
  {
    hide Covers, Spread, Pruned, Recent, Entered, WritesOn, TicksOf, Inv;
    var n := |arrivals|;
    assert forall i | 0 <= i < n :: (arrivals + [a])[i] == arrivals[i];
    assert (arrivals + [a])[n] == a;
    if arrivals == [] {
      NothingKept(a.started, a.today);
      DecisionHere(NEW_DOOR, [], a.started, a.today, a);
    } else {
      assert (arrivals + [a])[n - 1] == arrivals[n - 1];
      DoorKeeps(arrivals);
      DecisionHere(DoorAfter(arrivals), Admitted(arrivals), arrivals[n - 1].started, arrivals[n - 1].today, a);
    }
  }

  lemma DecisionHere(door: Door, log: seq<Arrival>, clock: real, day: Day, a: Arrival)
    requires DoorOk(door) && Inv(door, log, clock, day) && clock <= a.started && day <= a.today
    ensures Entered(door, a).1 == DecisionOf(log, a)
  {
    hide WritesOn, TicksOf, Pruned, Recent, OfToday, Written, Covers, Spread;
    assert WindowInv(door, log, clock, a.source);
    PrunedIsRecent(door.rate[a.source], TicksOf(log, a.source), clock, a.started);
    TodaysWrites(door, log, clock, day, a);
  }

  lemma TodaysWrites(door: Door, log: seq<Arrival>, clock: real, day: Day, a: Arrival)
    requires DoorOk(door) && Inv(door, log, clock, day) && day <= a.today
    ensures Written(OfToday(door.writes, a.today), (a.source, a.today)) == WritesOn(log, (a.source, a.today))
  {
    hide WindowInv;
    var key := (a.source, a.today);
    assert key.1 > day || key.1 == day;
  }
}
