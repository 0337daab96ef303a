/** The reading side's worker pool: two reusable worker processes, a queue in front of them and the rate
    limit.  A request that is abandoned takes its worker with it; one that is answered leaves the worker
    for the next request. */
module Workers {
  import opened Wrappers
  import opened DayCounter
  import opened RateWindow

  type Code = string

  const WORKERS: nat := 2
  const MAX_QUEUED: nat := 4
  const DAILY_CAP: nat := 50

  // ----- the worker process ----------------------------------------------------------------

  datatype Question = TokenQuestion | PermitQuestion

  /** What a worker sends; a result names the request the worker was working on. */
  datatype Message = Asks(question: Question) | Final(request: nat, payload: Result<string, Code>)

  /** What a worker is sent. */
  datatype Order = Job(request: nat) | Answer(reply: Result<string, Code>)

  datatype Doing = Idle | Running(request: nat) | Asking(request: nat)

  /** A process with both directions of its pipe. */
  datatype Worker = Worker(alive: bool, doing: Doing, up: seq<Message>, down: seq<Order>)

  const FRESH: Worker := Worker(true, Idle, [], [])

  datatype Move = Accept | Ask(question: Question) | Hear | Finish(payload: Result<string, Code>) | Die

  /** `worker_main`: one request after the other, one question at a time. */
  predicate CanMove(w: Worker, move: Move) {
    && w.alive
    && match move
       case Accept => w.doing.Idle? && w.down != [] && w.down[0].Job?
       case Ask(_) => w.doing.Running?
       case Hear => w.doing.Asking? && w.down != [] && w.down[0].Answer?
       case Finish(_) => w.doing.Running?
       case Die => true
  }

  function Moved(w: Worker, move: Move): Worker
    requires CanMove(w, move)
  {
    match move
    case Accept => w.(doing := Running(w.down[0].request), down := w.down[1..])
    case Ask(question) => w.(doing := Asking(w.doing.request), up := w.up + [Asks(question)])
    case Hear => w.(doing := Running(w.doing.request), down := w.down[1..])
    case Finish(payload) => w.(doing := Idle, up := w.up + [Final(w.doing.request, payload)])
    case Die => w.(alive := false)
  }

  // ----- the pool --------------------------------------------------------------------------

  /** `WorkerPool`'s own fields, without the counter of HTTP attempts. */
  datatype Pool = Pool(slots: seq<Option<Worker>>, available: seq<nat>, rate: seq<real>, pending: int)

  const NEW_POOL: Pool := Pool([None, None], [0, 1], [], 0)

  /** The checks at the door. */
  function Entered(pool: Pool, started: real): (Pool, Result<(), Code>) {
    var kept := Pruned(pool.rate, started);
    if |kept| >= RATE_PER_MINUTE then (pool.(rate := kept), Err("source_rate_limited"))
    else if pool.pending >= WORKERS + MAX_QUEUED then (pool.(rate := kept), Err("queue_full"))
    else (pool.(rate := kept + [started], pending := pool.pending + 1), Ok(()))
  }

  /** The first free slot is taken, with a worker in it. */
  function Taken(pool: Pool): (r: (Pool, nat))
    requires pool.available != [] && pool.available[0] < |pool.slots|
  {
    var index := pool.available[0];
    var slots := if pool.slots[index].Some? then pool.slots else pool.slots[index := Some(FRESH)];
    (pool.(available := pool.available[1..], slots := slots), index)
  }

  /** The end of a request: the kill of an unanswered one, and its slot back in the queue unless the process
      could not be killed. */
  function Left(pool: Pool, held: Option<nat>, answered: bool, stuck: bool): (Pool, Result<(), Code>)
    requires held.Some? ==> held.value < |pool.slots|
  {
    var after := pool.(pending := pool.pending - 1);
    if held == None then (after, Ok(()))
    else
      var index := held.value;
      if answered || pool.slots[index] == None then (after.(available := pool.available + [index]), Ok(()))
      else if stuck then (after, Err("worker_unavailable"))
      else (after.(slots := pool.slots[index := None], available := pool.available + [index]), Ok(()))
  }

  /** The end of a request by what came of it: an answered one leaves its worker for the next; an unanswered one takes its
      worker with it, and a worker that cannot be killed takes its slot. */
  lemma LeavingByAnswer(pool: Pool, index: nat, answered: bool, stuck: bool)
    requires index < |pool.slots| && pool.slots[index].Some?
    ensures var (after, r) := Left(pool, Some(index), answered, stuck);
            && after.pending == pool.pending - 1 && after.rate == pool.rate
            && (answered ==> after.slots == pool.slots && after.available == pool.available + [index] && r == Ok(()))
            && (!answered && !stuck ==>
                  after.slots == pool.slots[index := None] && after.available == pool.available + [index] && r == Ok(()))
            && (!answered && stuck ==>
                  after.slots == pool.slots && after.available == pool.available && r == Err("worker_unavailable"))
  {
  }

  class WorkerPool {
    var slots: seq<Option<Worker>>
    var available: seq<nat>
    var rate: seq<real>
    var pending: int
    const attempts: Counter

    constructor ()
      ensures View() == NEW_POOL && attempts.store == map[] && fresh(attempts)
    {
      slots, available, rate, pending := [None, None], [0, 1], [], 0;
      attempts := new Counter();
    }

    ghost function View(): Pool
      reads this
    {
      Pool(slots, available, rate, pending)
    }

    /** The start of `run`, up to the wait for a slot. */
    method Enter(started: real) returns (r: Result<(), Code>)
      modifies this
      ensures (View(), r) == Entered(old(View()), started)
    {
      rate := RateWindow.Prune(rate, started);
      if |rate| >= RATE_PER_MINUTE {
        return Err("source_rate_limited");
      }
      if pending >= WORKERS + MAX_QUEUED {
        return Err("queue_full");
      }
      rate := rate + [started];
      pending := pending + 1;
      return Ok(());
    }

    method Take() returns (index: nat)
      requires available != [] && available[0] < |slots|
      modifies this
      ensures (View(), index) == Taken(old(View()))
    {
      index := available[0];
      available := available[1..];
      if slots[index] == None {
        slots := slots[index := Some(FRESH)];
      }
    }

    /** `_kill`; `stuck` says that the process survives. */
    method Kill(index: nat, stuck: bool) returns (r: Result<(), Code>)
      requires index < |slots|
      modifies this`slots
      ensures stuck && old(slots)[index].Some? ==> r == Err("worker_unavailable") && slots == old(slots)
      ensures !stuck || old(slots)[index] == None ==> r == Ok(()) && slots == old(slots)[index := None]
    {
      if slots[index] == None {
        return Ok(());
      }
      if stuck {
        return Err("worker_unavailable");
      }
      slots := slots[index := None];
      return Ok(());
    }

    /** The `finally` of `run`. */
    method Leave(held: Option<nat>, answered: bool, stuck: bool) returns (r: Result<(), Code>)
      requires held.Some? ==> held.value < |slots|
      modifies this
      ensures (View(), r) == Left(old(View()), held, answered, stuck)
    {
      pending := pending - 1;
      if held == None {
        return Ok(());
      }
      if !answered {
        var killed := Kill(held.value, stuck);
        if killed.Err? {
          return killed;
        }
      }
      available := available + [held.value];
      assert View() == Left(old(View()), held, answered, stuck).0;
      return Ok(());
    }

    /** `_permit`: one HTTP attempt of today. */
    method Permit(today: Day) returns (r: Result<(), Code>)
      modifies attempts
      ensures (attempts.store, r.Ok?) == DayCounter.Count(old(attempts.store), today, DAILY_CAP)
      ensures r.Err? ==> r.error == "daily_cap_reached"
    {
      var granted := attempts.CountOnce(today, DAILY_CAP);
      return if granted then Ok(()) else Err("daily_cap_reached");
    }
  }

  // ----- the whole system ------------------------------------------------------------------

  datatype Ending = Answered(producer: nat, payload: Result<string, Code>) | Faulted(code: Code)

  /** A request waits for a slot, holds one (perhaps while a thread renews the token), or is over. */
  datatype Request = Waiting | Holding(index: nat, renewing: bool) | Over(ending: Ending)

  datatype State = State(
    pool: Pool, requests: seq<Request>, retired: set<nat>,
    clock: real, log: seq<real>,
    attempts: Store, day: Day, permits: seq<Day>)

  const INITIAL: State := State(NEW_POOL, [], {}, 0.0, [], map[], 0, [])

  /** How a request loses its slot when it is not answered. */
  datatype Step =
    | Enter(started: real)
    | Take(r: nat, sent: bool, stuck: bool)               // the slot, and the request over its pipe
    | Work(i: nat, move: Move)
    | Serve(r: nat, sent: bool, stuck: bool)              // one message of the worker, and the reply to it
    | Renewed(r: nat, token: Result<string, Code>, sent: bool, stuck: bool)
    | Abandon(r: nat, code: Code, stuck: bool)            // time is up, cancelled, or the worker is dead
    | ThreadPermit                                        // an HTTP attempt of a renewal
    | NextDay(day: Day)

  predicate InHand(s: State, r: nat) {
    r < |s.requests| && s.requests[r].Holding? && s.requests[r].index < |s.pool.slots|
    && s.pool.slots[s.requests[r].index].Some?
  }

  /** The worker a request holds. */
  function WorkerOf(s: State, r: nat): Worker
    requires InHand(s, r)
  {
    s.pool.slots[s.requests[r].index].value
  }

  predicate CanStep(s: State, step: Step) {
    match step
    case Enter(started) => s.clock <= started
    case Take(r, _, _) =>
      r < |s.requests| && s.requests[r].Waiting? && s.pool.available != [] && s.pool.available[0] < |s.pool.slots|
    case Work(i, move) => i < |s.pool.slots| && s.pool.slots[i].Some? && CanMove(s.pool.slots[i].value, move)
    case Serve(r, _, _) => InHand(s, r) && !s.requests[r].renewing && WorkerOf(s, r).up != []
    case Renewed(r, _, _, _) => InHand(s, r) && s.requests[r].renewing
    case Abandon(r, _, _) => r < |s.requests| && (s.requests[r].Waiting? || InHand(s, r))
    case ThreadPermit => true
    case NextDay(day) => s.day <= day
  }

  function HeldBy(request: Request): Option<nat> {
    if request.Holding? then Some(request.index) else None
  }

  /** A request is over. */
  function Ended(s: State, r: nat, ending: Ending, stuck: bool): State
    requires r < |s.requests| && (s.requests[r].Holding? ==> s.requests[r].index < |s.pool.slots|)
  {
    var held := HeldBy(s.requests[r]);
    var (pool, left) := Left(s.pool, held, ending.Answered?, stuck);
    s.(pool := pool,
       requests := s.requests[r := Over(if left.Err? then Faulted(left.error) else ending)],
       retired := if left.Err? && held.Some? then s.retired + {held.value} else s.retired)
  }

  /** A message to the worker of a request; the pipe may be broken. */
  function Commanded(s: State, r: nat, order: Order, sent: bool, stuck: bool): State
    requires InHand(s, r)
  {
    if !sent then Ended(s, r, Faulted("worker_failed"), stuck)
    else
      var w := WorkerOf(s, r);
      s.(pool := s.pool.(slots := s.pool.slots[s.requests[r].index := Some(w.(down := w.down + [order]))]))
  }

  /** The head of the worker's messages is read. */
  function Read(s: State, r: nat): State
    requires InHand(s, r) && WorkerOf(s, r).up != []
  {
    var w := WorkerOf(s, r);
    s.(pool := s.pool.(slots := s.pool.slots[s.requests[r].index := Some(w.(up := w.up[1..]))]))
  }

  function Permitted(s: State): (State, bool) {
    var (attempts, granted) := DayCounter.Count(s.attempts, s.day, DAILY_CAP);
    (s.(attempts := attempts, permits := if granted then s.permits + [s.day] else s.permits), granted)
  }

  function Stepped(s: State, step: Step): State
    requires CanStep(s, step)
  {
    match step
    case Enter(started) =>
      var (pool, entered) := Entered(s.pool, started);
      s.(pool := pool, clock := started,
         requests := if entered.Ok? then s.requests + [Waiting] else s.requests,
         log := if entered.Ok? then s.log + [started] else s.log)
    case Take(r, sent, stuck) =>
      var (pool, index) := Taken(s.pool);
      Commanded(s.(pool := pool, requests := s.requests[r := Holding(index, false)]), r, Job(r), sent, stuck)
    case Work(i, move) =>
      s.(pool := s.pool.(slots := s.pool.slots[i := Some(Moved(s.pool.slots[i].value, move))]))
    case Serve(r, sent, stuck) =>
      (match WorkerOf(s, r).up[0]
       case Final(producer, payload) => Ended(Read(s, r), r, Answered(producer, payload), stuck)
       case Asks(TokenQuestion) =>
         Read(s, r).(requests := s.requests[r := Holding(s.requests[r].index, true)])
       case Asks(PermitQuestion) =>
         var (after, granted) := Permitted(Read(s, r));
         Commanded(after, r, Answer(if granted then Ok("granted") else Err("daily_cap_reached")), sent, stuck))
    case Renewed(r, token, sent, stuck) =>
      Commanded(s.(requests := s.requests[r := Holding(s.requests[r].index, false)]), r, Answer(token), sent, stuck)
    case Abandon(r, code, stuck) => Ended(s, r, Faulted(code), stuck)
    case ThreadPermit => Permitted(s).0
    case NextDay(day) => s.(day := day)
  }

  ghost predicate IsRun(from: State, steps: seq<Step>)
    decreases |steps|
  {
    steps == [] || (CanStep(from, steps[0]) && IsRun(Stepped(from, steps[0]), steps[1..]))
  }

  function After(from: State, steps: seq<Step>): State
    requires IsRun(from, steps)
    decreases |steps|
  {
    if steps == [] then from else After(Stepped(from, steps[0]), steps[1..])
  }
}
