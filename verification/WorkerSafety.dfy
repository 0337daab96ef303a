/** What every step of the worker pool keeps: whose reply a request gets, where every slot is, how many
    requests are inside, and both limits over time. */
module WorkerSafety {
  import opened Wrappers
  import opened DayCounter
  import opened RateWindow
  import opened Workers

  // ----- one slot --------------------------------------------------------------------------

  /** A worker nobody works with: dead, or idle with both directions of its pipe empty. */
  predicate Clean(w: Worker) {
    w.up == [] && (w.alive ==> w.doing == Idle && w.down == [])
  }

  /** A worker in the hands of request `r` carries nothing of any other request. */
  predicate WorksFor(w: Worker, r: nat, renewing: bool) {
    && |w.up| <= 1
    && (w.up != [] && w.up[0].Final? ==> w.up[0].request == r)
    && (renewing ==> w.up == [])
    && (w.alive ==>
          match w.doing
          case Idle => !renewing && (if w.up == [] then w.down == [Job(r)] else w.up[0].Final? && w.down == [])
          case Running(q) => q == r && !renewing && w.up == [] && w.down == []
          case Asking(q) =>
            && q == r
            && (if renewing then w.down == []
                else if w.up == [] then |w.down| == 1 && w.down[0].Answer?
                else w.up[0].Asks? && w.down == []))
  }

  // ----- where the slots are ---------------------------------------------------------------

  predicate Holds(s: State, r: nat, i: nat) {
    r < |s.requests| && s.requests[r].Holding? && s.requests[r].index == i
  }

  /** Slot `i` is in exactly one place: in the queue, with one request, or retired for good. */
  ghost predicate Placed(s: State, i: nat) {
    && (i in s.pool.available || i in s.retired || exists r :: Holds(s, r, i))
    && !(i in s.pool.available && i in s.retired)
    && (forall r :: Holds(s, r, i) ==> i !in s.pool.available && i !in s.retired)
    && (forall q, r :: Holds(s, q, i) && Holds(s, r, i) ==> q == r)
  }

  predicate Distinct(available: seq<nat>) {
    forall j, k | 0 <= j < k < |available| :: available[j] != available[k]
  }

  ghost predicate SlotInv(s: State) {
    && |s.pool.slots| == WORKERS
    && Distinct(s.pool.available) && (forall k | 0 <= k < |s.pool.available| :: s.pool.available[k] < WORKERS)
    && (forall i | 0 <= i < WORKERS :: Placed(s, i))
    && (forall r | 0 <= r < |s.requests| && s.requests[r].Holding? :: s.requests[r].index < WORKERS)
    && (forall i | i in s.retired :: i < WORKERS)
  }

  predicate WorkerInv(s: State)
    requires |s.pool.slots| == WORKERS
  {
    && (forall i: nat | i < WORKERS && i in s.pool.available && s.pool.slots[i].Some? :: Clean(s.pool.slots[i].value))
    && (forall r | 0 <= r < |s.requests| && s.requests[r].Holding? ::
          InHand(s, r) && WorksFor(WorkerOf(s, r), r, s.requests[r].renewing))
  }

  // ----- requests --------------------------------------------------------------------------

  /** How many requests are inside. */
  function Inside(requests: seq<Request>): nat {
    if requests == [] then 0
    else Inside(requests[..|requests| - 1]) + if requests[|requests| - 1].Over? then 0 else 1
  }

  predicate OwnReply(s: State, r: nat)
    requires r < |s.requests|
  {
    s.requests[r].Over? && s.requests[r].ending.Answered? ==> s.requests[r].ending.producer == r
  }

  ghost predicate RequestInv(s: State) {
    && s.pool.pending == Inside(s.requests) <= WORKERS + MAX_QUEUED
    && (forall r | 0 <= r < |s.requests| :: OwnReply(s, r))
  }

  ghost predicate LimitInv(s: State) {
    && Covers(s.pool.rate, s.log, s.clock) && Spread(s.log)
    && BookInv(s.attempts, s.permits, s.day, DAILY_CAP)
  }

  ghost predicate Inv(s: State) {
    SlotInv(s) && WorkerInv(s) && RequestInv(s) && LimitInv(s)
  }

  // ----- lemmas about the parts ------------------------------------------------------------

  lemma {:induction false} InsideUpdate(requests: seq<Request>, r: nat, next: Request)
    requires r < |requests|
    ensures Inside(requests[r := next])
         == Inside(requests) - (if requests[r].Over? then 0 else 1) + (if next.Over? then 0 else 1)
    decreases |requests|
  {
    var n := |requests| - 1;
    if r < n {
      InsideUpdate(requests[..n], r, next);
      assert requests[r := next][..n] == requests[..n][r := next];
    } else {
      assert requests[r := next][..n] == requests[..n];
    }
  }

  lemma InsideAppend(requests: seq<Request>, next: Request)
    ensures Inside(requests + [next]) == Inside(requests) + if next.Over? then 0 else 1
  {
    assert (requests + [next])[..|requests|] == requests;
  }

  lemma SameDistinct(available: seq<nat>, value: nat)
    requires forall k | 0 <= k < |available| :: available[k] == value
    ensures Distinct(available) <==> |available| <= 1
  {
    if |available| > 1 {
      assert available[0] == available[1];
    }
  }

  /** The queue has room for every slot that can come back: `put_nowait` never overflows. */
  lemma RoomForTheSlot(s: State, r: nat)
    requires SlotInv(s) && r < |s.requests| && s.requests[r].Holding?
    ensures |s.pool.available| < WORKERS
  {
    var i, a := s.requests[r].index, s.pool.available;
    assert Holds(s, r, i) && Placed(s, i);
    SameDistinct(a, 1 - i);
  }

  lemma WorkerMoves(w: Worker, move: Move, r: nat, renewing: bool)
    requires CanMove(w, move)
    ensures WorksFor(w, r, renewing) ==> WorksFor(Moved(w, move), r, renewing)
    ensures Clean(w) ==> Clean(Moved(w, move))
  {
  }

  // ----- the end of a request --------------------------------------------------------------

  predicate WorkerInvBut(s: State, r: nat)
    requires |s.pool.slots| == WORKERS
  {
    && (forall i: nat | i < WORKERS && i in s.pool.available && s.pool.slots[i].Some? :: Clean(s.pool.slots[i].value))
    && (forall q | 0 <= q < |s.requests| && q != r && s.requests[q].Holding? ::
          InHand(s, q) && WorksFor(WorkerOf(s, q), q, s.requests[q].renewing))
  }

  predicate CanEnd(s: State, r: nat, ending: Ending) {
    && r < |s.requests|
    && (s.requests[r].Waiting? || InHand(s, r))
    && (ending.Answered? ==> ending.producer == r && InHand(s, r) && Clean(WorkerOf(s, r)))
  }

  lemma EndedSlots(s: State, r: nat, ending: Ending, stuck: bool)
    requires SlotInv(s) && CanEnd(s, r, ending)
    ensures SlotInv(Ended(s, r, ending, stuck))
  {
    var after := Ended(s, r, ending, stuck);
    if s.requests[r].Holding? {
      assert Holds(s, r, s.requests[r].index) && Placed(s, s.requests[r].index);
    }
    forall i | 0 <= i < WORKERS ensures Placed(after, i) {
      assert Placed(s, i);
      assert forall q :: q != r ==> Holds(after, q, i) == Holds(s, q, i);
      assert !Holds(after, r, i);
      if i in s.pool.available {
        assert i in after.pool.available;
      }
    }
  }

  lemma EndedWorkers(s: State, r: nat, ending: Ending, stuck: bool)
    requires SlotInv(s) && WorkerInvBut(s, r) && CanEnd(s, r, ending)
    ensures WorkerInv(Ended(s, r, ending, stuck))
  {
    var after := Ended(s, r, ending, stuck);
    forall q | 0 <= q < |after.requests| && after.requests[q].Holding?
      ensures InHand(after, q) && WorksFor(WorkerOf(after, q), q, after.requests[q].renewing)
    {
      assert q != r && Holds(s, q, s.requests[q].index) && Placed(s, s.requests[q].index);
      if s.requests[r].Holding? {
        assert Holds(s, r, s.requests[r].index);
      }
    }
  }

  lemma EndedRequests(s: State, r: nat, ending: Ending, stuck: bool)
    requires RequestInv(s) && CanEnd(s, r, ending)
    ensures RequestInv(Ended(s, r, ending, stuck))
  {
    var after := Ended(s, r, ending, stuck);
    InsideUpdate(s.requests, r, after.requests[r]);
    forall q | 0 <= q < |after.requests| ensures OwnReply(after, q) {
      assert OwnReply(s, q);
    }
  }

  lemma EndedKeeps(s: State, r: nat, ending: Ending, stuck: bool)
    requires SlotInv(s) && WorkerInvBut(s, r) && RequestInv(s) && LimitInv(s) && CanEnd(s, r, ending)
    ensures Inv(Ended(s, r, ending, stuck))
  {
    EndedSlots(s, r, ending, stuck);
    EndedWorkers(s, r, ending, stuck);
    EndedRequests(s, r, ending, stuck);
    LimitsApart(s, Ended(s, r, ending, stuck));
    hide SlotInv, WorkerInv, WorkerInvBut, LimitInv, RequestInv;
  }

  lemma LimitsApart(s: State, after: State)
    requires LimitInv(s)
    requires after.pool.rate == s.pool.rate && after.log == s.log && after.clock == s.clock
    requires after.attempts == s.attempts && after.permits == s.permits && after.day == s.day
    ensures LimitInv(after)
  {
    hide Covers, Spread, BookInv;
  }

  /** A message to the worker in hand. */
  lemma CommandedKeeps(s: State, r: nat, order: Order, sent: bool, stuck: bool)
    requires SlotInv(s) && WorkerInvBut(s, r) && RequestInv(s) && LimitInv(s) && InHand(s, r)
    requires var w := WorkerOf(s, r); WorksFor(w.(down := w.down + [order]), r, s.requests[r].renewing)
    ensures Inv(Commanded(s, r, order, sent, stuck))
  {
    if !sent {
      EndedKeeps(s, r, Faulted("worker_failed"), stuck);
    } else {
      var w := WorkerOf(s, r);
      SlotChanged(s, Commanded(s, r, order, sent, stuck), r, w.(down := w.down + [order]));
    }
  }

  /** Only the worker in hand has changed. */
  lemma SlotChanged(s: State, after: State, r: nat, w: Worker)
    requires SlotInv(s) && WorkerInvBut(s, r) && RequestInv(s) && LimitInv(s) && InHand(s, r)
    requires after == s.(pool := s.pool.(slots := s.pool.slots[s.requests[r].index := Some(w)]))
    requires WorksFor(w, r, s.requests[r].renewing)
    ensures Inv(after)
  {
    SlotsApart(s, after);
    LimitsApart(s, after);
    RequestsApart(s, after);
    var i := s.requests[r].index;
    assert Holds(s, r, i) && Placed(s, i);
    forall q | 0 <= q < |after.requests| && after.requests[q].Holding?
      ensures InHand(after, q) && WorksFor(WorkerOf(after, q), q, after.requests[q].renewing)
    {
      assert Holds(s, q, s.requests[q].index) && Placed(s, s.requests[q].index);
    }
    hide SlotInv, LimitInv, RequestInv, Clean, WorksFor;
  }

  lemma RequestsApart(s: State, after: State)
    requires RequestInv(s) && after.requests == s.requests && after.pool.pending == s.pool.pending
    ensures RequestInv(after)
  {
    assert forall r | 0 <= r < |s.requests| :: OwnReply(after, r) == OwnReply(s, r);
  }

  /** The places of the slots depend on the queue and the requests alone. */
  lemma SlotsApart(s: State, after: State)
    requires SlotInv(s) && |after.pool.slots| == WORKERS
    requires after.pool.available == s.pool.available && after.retired == s.retired
    requires |after.requests| == |s.requests|
    requires forall r | 0 <= r < |s.requests| :: HeldBy(after.requests[r]) == HeldBy(s.requests[r])
    ensures SlotInv(after)
  {
    forall i | 0 <= i < WORKERS ensures Placed(after, i) {
      assert Placed(s, i);
      assert forall r :: Holds(after, r, i) == Holds(s, r, i);
    }
  }

  // ----- steps -----------------------------------------------------------------------------

  lemma EnterLimits(s: State, started: real)
    requires LimitInv(s) && CanStep(s, Enter(started))
    ensures LimitInv(Stepped(s, Enter(started)))
  {
    hide Covers, Spread, Pruned, BookInv;
    PruneKeeps(s.pool.rate, s.log, s.clock, started);
    if Entered(s.pool, started).1.Ok? {
      AdmitKeeps(s.pool.rate, s.log, s.clock, started);
    }
  }

  lemma EnterRequests(s: State, started: real)
    requires RequestInv(s) && CanStep(s, Enter(started))
    ensures RequestInv(Stepped(s, Enter(started)))
  {
    hide Inside, Pruned;
    var after := Stepped(s, Enter(started));
    InsideAppend(s.requests, Waiting);
    assert forall r | 0 <= r < |s.requests| :: OwnReply(after, r) == OwnReply(s, r);
  }

  lemma EnterSlots(s: State, started: real)
    requires SlotInv(s) && CanStep(s, Enter(started))
    ensures SlotInv(Stepped(s, Enter(started)))
  {
    hide Pruned;
    var after := Stepped(s, Enter(started));
    assert forall r, i :: Holds(after, r, i) == Holds(s, r, i);
    forall i | 0 <= i < WORKERS ensures Placed(after, i) {
      assert Placed(s, i);
    }
  }

  lemma EnterKeeps(s: State, started: real)
    requires Inv(s) && CanStep(s, Enter(started))
    ensures Inv(Stepped(s, Enter(started)))
  {
    hide RequestInv, LimitInv, Pruned, Clean, WorksFor, Placed;
    var after := Stepped(s, Enter(started));
    EnterLimits(s, started);
    EnterRequests(s, started);
    EnterSlots(s, started);
    forall q | 0 <= q < |after.requests| && after.requests[q].Holding?
      ensures InHand(after, q) && WorksFor(WorkerOf(after, q), q, after.requests[q].renewing)
    {
      assert q < |s.requests| && InHand(s, q);
    }
  }

  /** The state after a slot is taken and before the request is sent. */
  function TookSlot(s: State, r: nat): State
    requires r < |s.requests| && s.pool.available != [] && s.pool.available[0] < |s.pool.slots|
  {
    s.(pool := Taken(s.pool).0, requests := s.requests[r := Holding(Taken(s.pool).1, false)])
  }

  lemma TookSlots(s: State, r: nat)
    requires SlotInv(s) && r < |s.requests| && s.requests[r].Waiting? && s.pool.available != []
    ensures SlotInv(TookSlot(s, r))
    ensures s.pool.available[0] !in TookSlot(s, r).pool.available
  {
    var after, a := TookSlot(s, r), s.pool.available;
    assert a == [a[0]] + a[1..];
    forall i | 0 <= i < WORKERS ensures Placed(after, i) {
      assert Placed(s, i);
      assert forall q :: q != r ==> Holds(after, q, i) == Holds(s, q, i);
      assert Holds(after, r, i) <==> i == a[0];
      assert i in a[1..] <==> i in a && i != a[0];
    }
  }

  lemma TakeKeeps(s: State, r: nat, sent: bool, stuck: bool)
    requires Inv(s) && CanStep(s, Take(r, sent, stuck))
    ensures Inv(Stepped(s, Take(r, sent, stuck)))
  {
    var after, index := TookSlot(s, r), s.pool.available[0];
    TookSlots(s, r);
    InsideUpdate(s.requests, r, after.requests[r]);
    assert RequestInv(after) by {
      assert forall q | 0 <= q < |s.requests| && q != r :: OwnReply(after, q) == OwnReply(s, q);
    }
    LimitsApart(s, after);
    assert Placed(s, index);
    forall q | 0 <= q < |after.requests| && q != r && after.requests[q].Holding?
      ensures InHand(after, q) && WorksFor(WorkerOf(after, q), q, after.requests[q].renewing)
    {
      assert Holds(s, q, s.requests[q].index);
    }
    assert WorkerInvBut(after, r);
    CommandedKeeps(after, r, Job(r), sent, stuck);
  }

  lemma WorkKeeps(s: State, i: nat, move: Move)
    requires Inv(s) && CanStep(s, Work(i, move))
    ensures Inv(Stepped(s, Work(i, move)))
  {
    var after, w := Stepped(s, Work(i, move)), s.pool.slots[i].value;
    SlotsApart(s, after);
    LimitsApart(s, after);
    RequestsApart(s, after);
    hide SlotInv, LimitInv, RequestInv, Clean, WorksFor, CanMove, Moved;
    forall k: nat | k < WORKERS && k in after.pool.available && after.pool.slots[k].Some?
      ensures Clean(after.pool.slots[k].value)
    {
      WorkerMoves(w, move, 0, false);
    }
    forall q | 0 <= q < |after.requests| && after.requests[q].Holding?
      ensures InHand(after, q) && WorksFor(WorkerOf(after, q), q, after.requests[q].renewing)
    {
      assert InHand(s, q);
      WorkerMoves(w, move, q, s.requests[q].renewing);
    }
  }

  /** Reading a message leaves everything but the worker in hand as it was. */
  lemma ReadKeeps(s: State, r: nat)
    requires Inv(s) && InHand(s, r) && WorkerOf(s, r).up != []
    ensures var after := Read(s, r);
            SlotInv(after) && WorkerInvBut(after, r) && RequestInv(after) && LimitInv(after) && InHand(after, r)
  {
    var after := Read(s, r);
    SlotsApart(s, after);
    LimitsApart(s, after);
    RequestsApart(s, after);
    assert Holds(s, r, s.requests[r].index) && Placed(s, s.requests[r].index);
    forall q | 0 <= q < |after.requests| && q != r && after.requests[q].Holding?
      ensures InHand(after, q) && WorksFor(WorkerOf(after, q), q, after.requests[q].renewing)
    {
      assert Holds(s, q, s.requests[q].index);
    }
    hide LimitInv, RequestInv, Clean, WorksFor;
  }

  /** Whether a token is being renewed changes nothing but that. */
  lemma RenewingKeeps(s: State, r: nat, renewing: bool)
    requires SlotInv(s) && WorkerInvBut(s, r) && RequestInv(s) && LimitInv(s) && InHand(s, r)
    ensures var after := s.(requests := s.requests[r := Holding(s.requests[r].index, renewing)]);
            SlotInv(after) && WorkerInvBut(after, r) && RequestInv(after) && LimitInv(after) && InHand(after, r)
  {
    var after := s.(requests := s.requests[r := Holding(s.requests[r].index, renewing)]);
    SlotsApart(s, after);
    LimitsApart(s, after);
    InsideUpdate(s.requests, r, after.requests[r]);
    assert forall q | 0 <= q < |s.requests| && q != r :: OwnReply(after, q) == OwnReply(s, q);
    hide SlotInv, LimitInv, Clean, WorksFor, Inside;
  }

  lemma PermittedKeeps(s: State)
    requires LimitInv(s)
    ensures LimitInv(Permitted(s).0)
  {
    CountKeeps(s.attempts, s.permits, s.day, DAILY_CAP);
    hide Covers, Spread, BookInv, DayCounter.Count;
  }

  /** With a last message the worker is clean again, and the reply is the request's own. */
  lemma FinalLeavesClean(w: Worker, r: nat)
    requires WorksFor(w, r, false) && w.up != [] && w.up[0].Final?
    ensures w.up[0].request == r && Clean(w.(up := w.up[1..]))
  {
  }

  /** A question leaves the worker waiting for its answer. */
  lemma QuestionWaits(w: Worker, r: nat, order: Order)
    requires WorksFor(w, r, false) && w.up != [] && w.up[0].Asks? && order.Answer?
    ensures var read := w.(up := w.up[1..]);
            WorksFor(read, r, true) && WorksFor(read.(down := read.down + [order]), r, false)
  {
  }

  lemma ServeKeeps(s: State, r: nat, sent: bool, stuck: bool)
    requires Inv(s) && CanStep(s, Serve(r, sent, stuck))
    ensures Inv(Stepped(s, Serve(r, sent, stuck)))
  {
    var w, read := WorkerOf(s, r), Read(s, r);
    assert WorksFor(w, r, false);
    ReadKeeps(s, r);
    hide SlotInv, WorkerInv, WorkerInvBut, RequestInv, LimitInv, WorksFor, Clean, Commanded, Ended, DayCounter.Count;
    match w.up[0] {
      case Final(producer, payload) =>
        FinalLeavesClean(w, r);
        EndedKeeps(read, r, Answered(producer, payload), stuck);
      case Asks(TokenQuestion) =>
        QuestionWaits(w, r, Answer(Ok("")));
        RenewingKeeps(read, r, true);
        HandedBack(read.(requests := read.requests[r := Holding(read.requests[r].index, true)]), r);
      case Asks(PermitQuestion) =>
        var (after, granted) := Permitted(read);
        var order := Answer(if granted then Ok("granted") else Err("daily_cap_reached"));
        QuestionWaits(w, r, order);
        PermittedKeeps(read);
        PermitApart(read, after, r);
        CommandedKeeps(after, r, order, sent, stuck);
    }
  }

  lemma PermitApart(s: State, after: State, r: nat)
    requires SlotInv(s) && WorkerInvBut(s, r) && RequestInv(s) && InHand(s, r)
    requires after == s.(attempts := after.attempts, permits := after.permits)
    ensures SlotInv(after) && WorkerInvBut(after, r) && RequestInv(after) && InHand(after, r)
  {
    SlotsApart(s, after);
    RequestsApart(s, after);
    hide SlotInv, RequestInv, Clean, WorksFor;
  }

  lemma HandedBack(s: State, r: nat)
    requires SlotInv(s) && WorkerInvBut(s, r) && RequestInv(s) && LimitInv(s) && InHand(s, r)
    requires WorksFor(WorkerOf(s, r), r, s.requests[r].renewing)
    ensures Inv(s)
  {
    hide SlotInv, RequestInv, LimitInv, Clean, WorksFor;
  }

  lemma RenewedKeeps(s: State, r: nat, token: Result<string, Code>, sent: bool, stuck: bool)
    requires Inv(s) && CanStep(s, Renewed(r, token, sent, stuck))
    ensures Inv(Stepped(s, Renewed(r, token, sent, stuck)))
  {
    var w := WorkerOf(s, r);
    assert WorksFor(w, r, true);
    RenewingKeeps(s, r, false);
    CommandedKeeps(s.(requests := s.requests[r := Holding(s.requests[r].index, false)]), r, Answer(token), sent, stuck);
    hide SlotInv, WorkerInv, WorkerInvBut, RequestInv, LimitInv;
  }

  lemma AbandonKeeps(s: State, r: nat, code: Code, stuck: bool)
    requires Inv(s) && CanStep(s, Abandon(r, code, stuck))
    ensures Inv(Stepped(s, Abandon(r, code, stuck)))
  {
    EndedKeeps(s, r, Faulted(code), stuck);
  }

  lemma ClockKeeps(s: State, step: Step)
    requires Inv(s) && CanStep(s, step) && (step.ThreadPermit? || step.NextDay?)
    ensures Inv(Stepped(s, step))
  {
    var after := Stepped(s, step);
    if step.ThreadPermit? {
      PermittedKeeps(s);
    } else {
      NextDayKeeps(s.attempts, s.permits, s.day, step.day, DAILY_CAP);
    }
    SlotsApart(s, after);
    RequestsApart(s, after);
    hide SlotInv, RequestInv, Clean, WorksFor, Covers, Spread, BookInv, DayCounter.Count;
  }

  lemma StepKeeps(s: State, step: Step)
    requires Inv(s) && CanStep(s, step)
    ensures Inv(Stepped(s, step))
  {
    hide Inv;
    match step
    case Enter(started) => EnterKeeps(s, started);
    case Take(r, sent, stuck) => TakeKeeps(s, r, sent, stuck);
    case Work(i, move) => WorkKeeps(s, i, move);
    case Serve(r, sent, stuck) => ServeKeeps(s, r, sent, stuck);
    case Renewed(r, token, sent, stuck) => RenewedKeeps(s, r, token, sent, stuck);
    case Abandon(r, code, stuck) => AbandonKeeps(s, r, code, stuck);
    case _ => ClockKeeps(s, step);
  }

  lemma InitialInv()
    ensures Inv(INITIAL)
  {
    forall i | 0 <= i < WORKERS ensures Placed(INITIAL, i) {
      assert INITIAL.pool.available[i] == i;
    }
  }

  lemma {:induction false} RunKeeps(from: State, steps: seq<Step>)
    requires Inv(from) && IsRun(from, steps)
    ensures Inv(Workers.After(from, steps))
    decreases |steps|
  {
    hide Inv;
    if steps != [] {
      StepKeeps(from, steps[0]);
      RunKeeps(Stepped(from, steps[0]), steps[1..]);
    }
  }

  // ----- the promises ----------------------------------------------------------------------

  ghost predicate Reached(steps: seq<Step>, s: State) {
    IsRun(INITIAL, steps) && s == Workers.After(INITIAL, steps)
  }

  lemma ReachedInv(steps: seq<Step>, s: State)
    requires Reached(steps, s)
    ensures Inv(s)
  {
    InitialInv();
    RunKeeps(INITIAL, steps);
  }

  /** Whatever times out, is cancelled or dies in between: the reply a request is answered with was produced by a
      worker that was working on that very request. */
  lemma RepliesNeverCross(steps: seq<Step>, s: State, r: nat)
    requires Reached(steps, s) && r < |s.requests|
    requires s.requests[r].Over? && s.requests[r].ending.Answered?
    ensures s.requests[r].ending.producer == r
  {
    ReachedInv(steps, s);
    assert OwnReply(s, r);
    hide SlotInv, LimitInv;
  }

  /** A slot in the queue is empty, or its worker is dead, or idle with both directions of the pipe empty. */
  lemma QueuedSlotsAreClean(steps: seq<Step>, s: State, i: nat)
    requires Reached(steps, s) && i in s.pool.available
    ensures i < |s.pool.slots| && (s.pool.slots[i].Some? ==> Clean(s.pool.slots[i].value))
  {
    ReachedInv(steps, s);
    hide Clean, LimitInv, RequestInv;
  }

  /** Every slot is in exactly one place: queued, held by exactly one request, or retired; and a slot that comes
      back finds room in the queue. */
  lemma SlotsAreConserved(steps: seq<Step>, s: State, i: nat)
    requires Reached(steps, s) && i < WORKERS
    ensures Placed(s, i) && Distinct(s.pool.available)
    ensures (exists r :: Holds(s, r, i)) ==> |s.pool.available| < WORKERS
  {
    ReachedInv(steps, s);
    if r :| Holds(s, r, i) {
      RoomForTheSlot(s, r);
    }
    hide LimitInv, RequestInv;
  }

  /** `pending` is the number of requests inside, at most six. */
  lemma AtMostSixInside(steps: seq<Step>, s: State)
    requires Reached(steps, s)
    ensures s.pool.pending == Inside(s.requests) <= 6
  {
    ReachedInv(steps, s);
  }

  /** The rate over the whole history, and the HTTP attempts of each day, renewals in threads included. */
  lemma LimitsHold(steps: seq<Step>, s: State, day: Day)
    requires Reached(steps, s)
    ensures Spread(s.log) && GrantsOn(s.permits, day) <= 50
  {
    ReachedInv(steps, s);
    hide SlotInv, RequestInv;
  }

  /** An idle worker is only ever sent a request, and a worker that asked only ever gets the answer. */
  lemma NoStrayMessages(steps: seq<Step>, s: State, r: nat)
    requires Reached(steps, s) && InHand(s, r) && WorkerOf(s, r).alive && WorkerOf(s, r).down != []
    ensures var w := WorkerOf(s, r);
            && |w.down| == 1
            && (w.doing.Idle? ==> w.down[0] == Job(r))
            && (w.doing.Asking? ==> w.down[0].Answer?)
            && !w.doing.Running?
  {
    ReachedInv(steps, s);
    assert WorksFor(WorkerOf(s, r), r, s.requests[r].renewing);
    hide SlotInv, RequestInv, LimitInv, WorkerInv;
  }

  /** The pruned ticks decide like the whole history: a request is turned away for its rate exactly if 30 admitted
      requests lie in the last 60 seconds. */
  lemma RateIsExact(steps: seq<Step>, s: State, started: real)
    requires Reached(steps, s) && s.clock <= started
    ensures Entered(s.pool, started).1 == Err("source_rate_limited") <==> Recent(s.log, started) >= 30
  {
    ReachedInv(steps, s);
    PrunedIsRecent(s.pool.rate, s.log, s.clock, started);
    hide SlotInv, RequestInv, WorkerInv, Pruned, Recent, Covers, Spread;
  }

  /** The queue turns nobody away too early: a request within the rate is let in exactly while fewer than six are inside,
      and is told that the queue is full otherwise. */
  lemma QueueIsExact(steps: seq<Step>, s: State, started: real)
    requires Reached(steps, s) && s.clock <= started && Recent(s.log, started) < 30
    ensures Entered(s.pool, started).1 == if Inside(s.requests) < 6 then Ok(()) else Err("queue_full")
    ensures Inside(s.requests) <= 6
  {
    ReachedInv(steps, s);
    PrunedIsRecent(s.pool.rate, s.log, s.clock, started);
    hide SlotInv, WorkerInv, Pruned, Recent, Covers, Spread, Inside, OwnReply;
  }

  /** A slot whose process could not be killed never comes back. */
  lemma {:induction false} RetiredForEver(from: State, steps: seq<Step>)
    requires IsRun(from, steps)
    ensures from.retired <= Workers.After(from, steps).retired
    decreases |steps|
  {
    if steps != [] {
      hide Entered, Left, Taken, DayCounter.Count;
      RetiredForEver(Stepped(from, steps[0]), steps[1..]);
    }
  }
}
