/** What every step of the write-job protocol keeps, and so every run. */
module PostSafety {
  import opened Wrappers
  import opened Redaktion
  import opened PostAdapter
  import opened DayCounter
  import opened PostPool
  import opened PostProtocol

  // ----- one job ---------------------------------------------------------------------------

  /** The requests of the automaton up to these replies, in order. */
  function Calls(c: Contract, t: Task, replies: seq<Reply>): seq<Call>
    requires TaskOk(t)
  {
    if replies == [] then []
    else
      var before := replies[..|replies| - 1];
      Calls(c, t, before) + (match CallOf(c, t, Run(c, t, before)) case None => [] case Some(call) => [call])
  }

  predicate Granting(answers: seq<ServerAnswer>) {
    answers != [] && !answers[0].Denied?
  }

  /** The question is in one of the two directions of the pipe, or its answer was lost. */
  predicate Pending(job: JobState, ask: Ask) {
    || (job.up == [Question(ask)] && job.down == [])
    || (job.up == [] && |job.down| <= 1)
  }

  predicate PipeInv(c: Contract, job: JobState) {
    match job.proc
    case Reporting(digest) => Pending(job, Report(digest))
    case Waiting(pc, k) => Stands(c, job, pc) && k < |Questions(c, job, pc)| && Pending(job, Questions(c, job, pc)[k])
    case Closed => job.down == [] && (job.up == [] || (|job.up| == 1 && job.up[0].Last?))
    case _ => job.up == [] && job.down == []
  }

  /** The task is the approved one and the program stands at `pc`. */
  predicate OnTask(c: Contract, job: JobState) {
    job.task.Some? && TaskOk(job.task.value) && Faithful(c, job.task.value) && ApprovalHash(job.task.value.effect, c.hash) == job.request.freigabe
  }

  predicate ProgramInv(c: Contract, job: JobState) {
    && (job.task.Some? ==> OnTask(c, job))
    && (job.task == None ==> job.replies == [] && job.sent == [])
    && |job.sent| == |job.replies| + (if job.proc.Underway? then 1 else 0)
    && (job.task.Some? && !job.proc.Underway? ==> job.sent == Calls(c, job.task.value, job.replies))
    && match job.proc
       case Loading => job.task == None
       case Reporting(digest) => job.task.Some? && digest == job.request.freigabe && job.replies == []
       case Calling(pc, k) => Stands(c, job, pc) && k <= |Questions(c, job, pc)|
       case Waiting(pc, k) => Stands(c, job, pc) && k < |Questions(c, job, pc)|
       case Underway(pc) =>
         Stands(c, job, pc) && job.sent == Calls(c, job.task.value, job.replies) + [Current(c, job, pc)]
       case Closing(final) => FinalInv(job, final)
       case Closed => job.up != [] ==> job.up[0].Last? && FinalInv(job, job.up[0].final)
  }

  /** A job reports success only for the effect it was approved for. */
  predicate FinalInv(job: JobState, final: Final) {
    && (final.Success? ==> job.task.Some? && final.payload.hash == job.request.freigabe && !final.payload.repeated)
    && (final.Erledigt? ==> job.task.Some? && job.sent == [] && job.side.digest == Some(job.request.freigabe))
  }

  predicate WritesSent(job: JobState) {
    exists i | 0 <= i < |job.sent| :: Writes(job.sent[i])
  }

  /** The write grant comes before the write: nothing is or can be under way unless the server knows. */
  predicate WriteInv(c: Contract, job: JobState) {
    !job.side.writeStarted ==>
      && !WritesSent(job)
      && match job.proc
         case Calling(pc, k) => Stands(c, job, pc) && Writes(Current(c, job, pc)) ==> k < |Questions(c, job, pc)|
         case Waiting(pc, k) =>
           Stands(c, job, pc) && Writes(Current(c, job, pc)) ==> k + 1 < |Questions(c, job, pc)| || !Granting(job.down)
         case _ => true
  }

  /** The index of the permit among the questions of the current call. */
  function PermitAt(c: Contract, job: JobState, pc: Pc): nat
    requires Stands(c, job, pc)
  {
    |Questions(c, job, pc)| - if Writes(Current(c, job, pc)) then 2 else 1
  }

  /** Every request has its own permit, and the action is counted once before the first request. */
  predicate GrantInv(c: Contract, job: JobState) {
    && |job.sent| <= |job.grants|
    && job.counted <= 1
    && (job.sent != [] || job.replies != [] ==> job.counted == 1)
    && match job.proc
       case Loading => job.counted == 0
       case Reporting(_) => job.counted == 0
       case Calling(pc, k) =>
         Stands(c, job, pc) ==>
           && (k > PermitAt(c, job, pc) ==> |job.sent| < |job.grants|)
           && (job.counted == 0 <==> job.replies == [] && k == 0)
       case Waiting(pc, k) =>
         Stands(c, job, pc) ==>
           && (k > PermitAt(c, job, pc) || (k == PermitAt(c, job, pc) && Granting(job.down)) ==>
                 |job.sent| < |job.grants|)
           && (job.up != [] ==> (job.counted == 0 <==> job.replies == [] && k == 0))
           && (job.down != [] ==> (job.replies != [] || k > 0 || Granting(job.down) ==> job.counted == 1))
       case _ => true
  }

  predicate SideInv(job: JobState) {
    && job.side.entryId == job.request.entryId
    && (job.side.verdict.Failure? ==> job.side.verdict.notExecuted == !job.side.writeStarted)
    && (job.proc.Reporting? && job.down != [] && !job.down[0].Denied? ==> job.side.digest == Some(job.request.freigabe))
    && (job.side.preview ==> job.task == None && !job.proc.Reporting?)
  }

  predicate JobInv(c: Contract, job: JobState) {
    PipeInv(c, job) && ProgramInv(c, job) && WriteInv(c, job) && GrantInv(c, job) && SideInv(job)
  }

  lemma CallsStep(c: Contract, t: Task, replies: seq<Reply>, reply: Reply)
    requires TaskOk(t) && CallOf(c, t, Run(c, t, replies)).Some?
    ensures Calls(c, t, replies + [reply]) == Calls(c, t, replies) + [CallOf(c, t, Run(c, t, replies)).value]
    ensures Run(c, t, replies + [reply]) == Advance(c, t, Run(c, t, replies), reply)
  {
    hide Advance, CallOf, TaskOk;
    var all := replies + [reply];
    assert all[..|all| - 1] == replies && all[|all| - 1] == reply;
  }

  lemma EnterInv(c: Contract, job: JobState, pc: Pc)
    requires job.task.Some? && OnTask(c, job) && Run(c, job.task.value, job.replies) == pc
    requires job.proc == Enter(c, job.request, job.task.value, pc)
    requires job.up == [] && job.down == [] && job.sent == Calls(c, job.task.value, job.replies)
    requires !job.side.writeStarted ==> !WritesSent(job)
    requires |job.sent| == |job.replies| <= |job.grants| && job.counted == (if job.replies == [] then 0 else 1)
    requires SideInv(job)
    ensures JobInv(c, job)
  {
    hide Run, Advance, Calls, TaskOk, ApprovalHash, FormatOf;
  }

  /** Moves on the pipe do not touch the program. */
  lemma SameProgram(c: Contract, job: JobState, after: JobState, pc: Pc)
    requires job.request == after.request && job.task == after.task && job.replies == after.replies
    ensures OnTask(c, job) == OnTask(c, after)
    ensures Stands(c, job, pc) == Stands(c, after, pc)
    ensures Stands(c, job, pc) ==>
              && Questions(c, job, pc) == Questions(c, after, pc) && Current(c, job, pc) == Current(c, after, pc)
              && PermitAt(c, job, pc) == PermitAt(c, after, pc)
  {
    hide TaskOk, Faithful, Run, CallOf, ApprovalHash;
  }

  /** Where the count, the permit and the write grant stand among the questions of a call. */
  lemma AsksShape(call: Call, begun: bool)
    ensures var asks, n := Asks(call, begun), |Asks(call, begun)|;
            var permit := n - if Writes(call) then 2 else 1;
            && permit >= 0 && asks[permit] == Permit
            && (forall k | 0 <= k < n :: asks[k] == Permit ==> k == permit)
            && (forall k | 0 <= k < n :: asks[k] == Write <==> Writes(call) && k == n - 1)
            && (forall k | 0 <= k < n :: asks[k] == Ask.Count <==> !begun && k == 0)
  {
  }

  lemma AskNextKeeps(c: Contract, job: JobState)
    requires JobInv(c, job) && CanMove(c, job, AskNext)
    ensures JobInv(c, Moved(c, job, AskNext))
  {
  }

  lemma SendCallKeeps(c: Contract, job: JobState)
    requires JobInv(c, job) && CanMove(c, job, SendCall)
    ensures JobInv(c, Moved(c, job, SendCall))
  {
  }

  lemma HearKeepsWaiting(c: Contract, job: JobState)
    requires JobInv(c, job) && CanMove(c, job, Hear) && job.proc.Waiting?
    ensures JobInv(c, Moved(c, job, Hear))
  {
    assert forall pc :: Stands(c, job, pc) == Stands(c, Moved(c, job, Hear), pc);
  }

  lemma HearKeepsReporting(c: Contract, job: JobState)
    requires JobInv(c, job) && CanMove(c, job, Hear) && job.proc.Reporting?
    ensures JobInv(c, Moved(c, job, Hear))
  {
    hide Advance, CallOf, FormatOf, ApprovalHash, Faithful, TaskOk, Start;
    if job.down[0] == Granted {
      EnterInv(c, Moved(c, job, Hear), Start(job.task.value));
    }
  }

  lemma ReceiveKeeps(c: Contract, job: JobState, reply: Reply)
    requires JobInv(c, job) && CanMove(c, job, Receive(reply))
    ensures JobInv(c, Moved(c, job, Receive(reply)))
  {
    var after := Moved(c, job, Receive(reply));
    CallsStep(c, job.task.value, job.replies, reply);
    EnterInv(c, after, Run(c, job.task.value, after.replies));
  }

  lemma LoadKeeps(c: Contract, job: JobState, task: Task)
    requires JobInv(c, job) && CanMove(c, job, Load(task))
    ensures JobInv(c, Moved(c, job, Load(task)))
  {
    hide Advance, CallOf, FormatOf, ApprovalHash, TaskOk, Start, Faithful, Writes;
  }

  lemma MoveKeeps(c: Contract, job: JobState, move: Move)
    requires JobInv(c, job) && CanMove(c, job, move)
    ensures JobInv(c, Moved(c, job, move))
  {
    hide Run, Advance, CallOf, FormatOf, ApprovalHash, TaskOk, Start, Faithful, Writes;
    match move {
      case Load(task) => LoadKeeps(c, job, task);
      case AskNext => AskNextKeeps(c, job);
      case Hear =>
        if job.proc.Waiting? {
          HearKeepsWaiting(c, job);
        } else {
          HearKeepsReporting(c, job);
        }
      case SendCall => SendCallKeeps(c, job);
      case Receive(reply) => ReceiveKeeps(c, job, reply);
      case _ =>
    }
  }

  // ----- the whole system ------------------------------------------------------------------

  predicate IsWrite(job: JobState) {
    !job.side.preview
  }

  function KeyOf(job: JobState): Key {
    (job.request.entryId, job.request.freigabe)
  }

  /** The server told the job to go on: its pair was not confirmed then. */
  predicate Cleared(job: JobState) {
    || job.proc.Calling? || job.proc.Waiting? || job.proc.Underway?
    || (job.proc.Reporting? && job.down == [Granted])
    || (job.proc.Closing? && job.proc.final.Success?)
    || (job.proc.Closed? && job.up != [] && job.up[0].Last? && job.up[0].final.Success?)
  }

  predicate Repeating(job: JobState) {
    || (job.proc.Reporting? && job.down == [Already])
    || (job.proc.Closing? && job.proc.final.Erledigt?)
    || (job.proc.Closed? && job.up != [] && job.up[0].Last? && job.up[0].final.Erledigt?)
  }

  /** At most one write job is open, an open job that was cleared is not confirmed yet, and one that was
      told "already done" finds its result. */
  predicate LiveInv(s: State, j: nat)
    requires j < |s.jobs|
  {
    var job := s.jobs[j];
    && (job.side.verdict.Open? ==> (if IsWrite(job) then s.current else s.preview) == Some(j))
    && (IsWrite(job) && job.side.verdict.Open? && Cleared(job) ==> KeyOf(job) !in s.books.done)
    && (IsWrite(job) && Repeating(job) ==> KeyOf(job) in s.books.done)
    && (IsWrite(job) && job.side.verdict.Result? ==> Remembered(s.books, job))
  }

  /** The result of a job is the stored one of its pair, as it is or marked as repeated. */
  predicate Remembered(books: Books, job: JobState)
    requires job.side.verdict.Result?
  {
    && KeyOf(job) in books.done
    && (job.side.verdict.payload == books.done[KeyOf(job)]
        || job.side.verdict.payload == books.done[KeyOf(job)].(repeated := true))
  }

  /** The grants of a job are its own entries of the log, each for one request. */
  predicate OwnGrants(s: State, j: nat)
    requires j < |s.jobs|
  {
    var grants := s.jobs[j].grants;
    && (forall k | 0 <= k < |grants| :: grants[k] < |s.httpLog| && s.httpLog[grants[k]].owner == Some(j))
    && (forall k | 0 < k < |grants| :: grants[k - 1] < grants[k])
  }

  predicate DoneInv(books: Books) {
    forall key | key in books.done :: books.done[key].hash == key.1 && !books.done[key].repeated
  }

  function DaysOf(log: seq<Grant>): seq<Day> {
    seq(|log|, i requires 0 <= i < |log| => log[i].day)
  }

  ghost predicate Inv(c: Contract, s: State) {
    && (forall j | 0 <= j < |s.jobs| :: JobInv(c, s.jobs[j]) && LiveInv(s, j) && OwnGrants(s, j))
    && DoneInv(s.books)
    && BookInv(s.books.http, DaysOf(s.httpLog), s.day, WRITE_HTTP_PER_DAY)
    && BookInv(s.books.actions, s.actionLog, s.day, WRITE_ACTIONS_PER_DAY)
  }

  // ----- steps keep the invariant ----------------------------------------------------------

  /** A question in the pipe is the one the job waits for, and nothing else is in the pipe. */
  lemma WhoAsks(c: Contract, job: JobState)
    requires PipeInv(c, job) && job.up != []
    ensures job.up[0].Last? ==> job.proc.Closed? && job.up == [job.up[0]] && job.down == []
    ensures job.up[0].Question? ==>
              && job.up == [job.up[0]] && job.down == []
              && match job.proc
                 case Reporting(digest) => job.up[0].ask == Report(digest)
                 case Waiting(pc, k) =>
                   Stands(c, job, pc) && k < |Questions(c, job, pc)| && job.up[0].ask == Questions(c, job, pc)[k]
                 case _ => false
  {
    hide Stands, Questions;
  }

  lemma ServedLast(c: Contract, s: State, j: nat, token: ServerAnswer, lost: bool)
    requires CanStep(c, s, Serve(j, token, lost)) && JobInv(c, s.jobs[j]) && s.jobs[j].up[0].Last?
    ensures JobInv(c, Served(s, j, token, lost).jobs[j])
  {
    WhoAsks(c, s.jobs[j]);
    hide OnTask, Calls, Stands, Questions;
  }

  /** The server's record and counters after an answer. */
  predicate AnswerInv(side: Side, after: Side, ask: Ask, answer: ServerAnswer) {
    && after.entryId == side.entryId && after.preview == side.preview && after.verdict == side.verdict
    && (side.writeStarted ==> after.writeStarted)
    && (after.writeStarted && !side.writeStarted ==> ask == Write)
    && (ask == Write && !side.preview ==> after.writeStarted)
    && (side.preview ==> answer.Denied?)
    && (ask.Report? && !answer.Denied? ==> after.digest == Some(ask.digest))
    && (ask == Permit || ask == Ask.Count ==> answer != Already)
  }

  lemma Replies(s: State, j: nat, ask: Ask, token: ServerAnswer)
    requires j < |s.jobs|
    ensures var (_, after, answer) := Replied(s, j, ask, token); AnswerInv(s.jobs[j].side, after, ask, answer)
  {
    hide DayCounter.Count, HashForm;
  }

  lemma AnsweredPipe(c: Contract, job: JobState, side: Side, answer: ServerAnswer, lost: bool, index: nat)
    requires JobInv(c, job) && job.side.verdict.Open? && job.up != [] && job.up[0].Question?
    requires AnswerInv(job.side, side, job.up[0].ask, answer)
    ensures PipeInv(c, Answered(job, side, answer, lost, index))
  {
    WhoAsks(c, job);
    if job.proc.Waiting? {
      SameProgram(c, job, Answered(job, side, answer, lost, index), job.proc.pc);
    }
    hide OnTask, Calls, Stands, Questions, Current, WriteInv, GrantInv, ProgramInv, SideInv, HashForm;
  }

  lemma AnsweredSide(c: Contract, job: JobState, side: Side, answer: ServerAnswer, lost: bool, index: nat)
    requires JobInv(c, job) && job.side.verdict.Open? && job.up != [] && job.up[0].Question?
    requires AnswerInv(job.side, side, job.up[0].ask, answer)
    ensures SideInv(Answered(job, side, answer, lost, index))
  {
    WhoAsks(c, job);
    hide OnTask, Calls, Stands, Questions, Current, WriteInv, GrantInv, HashForm;
  }

  lemma AnsweredProgram(c: Contract, job: JobState, side: Side, answer: ServerAnswer, lost: bool, index: nat)
    requires JobInv(c, job) && job.side.verdict.Open? && job.up != [] && job.up[0].Question?
    requires AnswerInv(job.side, side, job.up[0].ask, answer)
    ensures ProgramInv(c, Answered(job, side, answer, lost, index))
  {
    WhoAsks(c, job);
    if job.proc.Waiting? {
      SameProgram(c, job, Answered(job, side, answer, lost, index), job.proc.pc);
    }
    hide Calls, Stands, Questions, Current, WriteInv, GrantInv, SideInv, Faithful, TaskOk, ApprovalHash;
  }

  lemma AnsweredWrite(c: Contract, job: JobState, side: Side, answer: ServerAnswer, lost: bool, index: nat)
    requires JobInv(c, job) && job.side.verdict.Open? && job.up != [] && job.up[0].Question?
    requires AnswerInv(job.side, side, job.up[0].ask, answer)
    ensures WriteInv(c, Answered(job, side, answer, lost, index))
  {
    WhoAsks(c, job);
    if job.proc.Waiting? {
      SameProgram(c, job, Answered(job, side, answer, lost, index), job.proc.pc);
      AsksShape(Current(c, job, job.proc.pc), job.replies != []);
    }
    hide OnTask, Calls, Stands, Questions, Current, GrantInv;
  }

  /** Which question of a call is which, in the terms of the invariant. */
  lemma QuestionKinds(c: Contract, job: JobState, pc: Pc, k: nat)
    requires Stands(c, job, pc) && k < |Questions(c, job, pc)|
    ensures var ask := Questions(c, job, pc)[k];
            && (ask == Permit <==> k == PermitAt(c, job, pc))
            && (ask == Ask.Count <==> job.replies == [] && k == 0)
  {
    AsksShape(Current(c, job, pc), job.replies != []);
    hide Asks, Writes, Stands;
  }

  lemma AnsweredGrants(c: Contract, job: JobState, side: Side, answer: ServerAnswer, lost: bool, index: nat)
    requires JobInv(c, job) && job.side.verdict.Open? && job.up != [] && job.up[0].Question?
    requires AnswerInv(job.side, side, job.up[0].ask, answer)
    ensures GrantInv(c, Answered(job, side, answer, lost, index))
  {
    WhoAsks(c, job);
    if job.proc.Waiting? {
      SameProgram(c, job, Answered(job, side, answer, lost, index), job.proc.pc);
      QuestionKinds(c, job, job.proc.pc, job.proc.k);
    }
    hide OnTask, Calls, Stands, Questions, Current, WriteInv, FinalInv, HashForm, Writes, SideInv, ProgramInv, PermitAt, PipeInv;
  }

  lemma ServeKeepsJob(c: Contract, s: State, j: nat, token: ServerAnswer, lost: bool)
    requires CanStep(c, s, Serve(j, token, lost)) && JobInv(c, s.jobs[j])
    ensures JobInv(c, Served(s, j, token, lost).jobs[j])
  {
    var job := s.jobs[j];
    if job.up[0].Last? {
      ServedLast(c, s, j, token, lost);
    } else {
      var (_, side, answer) := Replied(s, j, job.up[0].ask, token);
      Replies(s, j, job.up[0].ask, token);
      AnsweredPipe(c, job, side, answer, lost, |s.httpLog|);
      AnsweredSide(c, job, side, answer, lost, |s.httpLog|);
      AnsweredProgram(c, job, side, answer, lost, |s.httpLog|);
      AnsweredWrite(c, job, side, answer, lost, |s.httpLog|);
      AnsweredGrants(c, job, side, answer, lost, |s.httpLog|);
      hide PipeInv, ProgramInv, WriteInv, GrantInv, SideInv, Replied, Answered;
    }
  }

  /** A step that leaves the logs alone or only appends to them leaves the grants of a job alone. */
  lemma GrantsStay(s: State, after: State, j: nat)
    requires j < |s.jobs| && j < |after.jobs| && OwnGrants(s, j)
    requires after.jobs[j].grants == s.jobs[j].grants && s.httpLog <= after.httpLog
    ensures OwnGrants(after, j)
  {
  }

  lemma ProcessKeeps(c: Contract, s: State, j: nat, move: Move)
    requires Inv(c, s) && CanStep(c, s, Process(j, move))
    ensures Inv(c, Stepped(c, s, Process(j, move)))
  {
    var after := Stepped(c, s, Process(j, move));
    MoveKeeps(c, s.jobs[j], move);
    MoveKeepsLive(c, s, j, move);
    hide JobInv, OwnGrants, DoneInv, BookInv, CanMove, Moved, Cleared, Repeating;
    assert after.jobs[j].grants == s.jobs[j].grants by { MoveKeepsGrants(c, s.jobs[j], move); }
    forall i | 0 <= i < |after.jobs| ensures JobInv(c, after.jobs[i]) && LiveInv(after, i) && OwnGrants(after, i) {
      GrantsStay(s, after, i);
    }
  }

  lemma MoveKeepsGrants(c: Contract, job: JobState, move: Move)
    requires CanMove(c, job, move)
    ensures Moved(c, job, move).grants == job.grants
  {
  }

  lemma MoveKeepsLive(c: Contract, s: State, j: nat, move: Move)
    requires CanStep(c, s, Process(j, move)) && JobInv(c, s.jobs[j]) && LiveInv(s, j)
    ensures LiveInv(Stepped(c, s, Process(j, move)), j)
  {
    hide Run, Calls, ApprovalHash, TaskOk, Advance;
  }

  lemma DaysAppend(log: seq<Grant>, grant: Grant)
    ensures DaysOf(log + [grant]) == DaysOf(log) + [grant.day]
  {
  }

  /** A counter moves only with its own question, and a grant is in the log exactly if it was counted. */
  predicate Counted(before: Store, after: Store, day: Day, cap: nat, granted: bool) {
    if granted then (after, true) == DayCounter.Count(before, day, cap)
    else after == before || (after, false) == DayCounter.Count(before, day, cap)
  }

  lemma RepliedBooks(s: State, j: nat, ask: Ask, token: ServerAnswer)
    requires j < |s.jobs|
    ensures var (books, side, answer) := Replied(s, j, ask, token);
            && Counted(s.books.http, books.http, s.day, WRITE_HTTP_PER_DAY, ask == Permit && answer == Granted)
            && Counted(s.books.actions, books.actions, s.day, WRITE_ACTIONS_PER_DAY, ask == Ask.Count && answer == Granted)
            && books.done == s.books.done
            && (ask.Report? && answer == Granted ==> (s.jobs[j].side.entryId, ask.digest) !in books.done)
            && (ask.Report? && answer == Already ==> (s.jobs[j].side.entryId, ask.digest) in books.done)
  {
    hide DayCounter.Count, HashForm;
  }

  lemma CountedKeeps(before: Store, after: Store, log: seq<Day>, day: Day, cap: nat, granted: bool)
    requires BookInv(before, log, day, cap) && Counted(before, after, day, cap, granted)
    ensures BookInv(after, if granted then log + [day] else log, day, cap)
  {
    CountKeeps(before, log, day, cap);
    hide BookInv, DayCounter.Count;
  }

  /** Serving a message keeps the counters true to the logs. */
  lemma ServeKeepsBooks(s: State, j: nat, token: ServerAnswer, lost: bool)
    requires j < |s.jobs| && s.jobs[j].up != []
    requires BookInv(s.books.http, DaysOf(s.httpLog), s.day, WRITE_HTTP_PER_DAY)
    requires BookInv(s.books.actions, s.actionLog, s.day, WRITE_ACTIONS_PER_DAY)
    ensures var after := Served(s, j, token, lost);
            && BookInv(after.books.http, DaysOf(after.httpLog), after.day, WRITE_HTTP_PER_DAY)
            && BookInv(after.books.actions, after.actionLog, after.day, WRITE_ACTIONS_PER_DAY)
            && s.httpLog <= after.httpLog
  {
    if s.jobs[j].up[0].Question? {
      var ask := s.jobs[j].up[0].ask;
      RepliedBooks(s, j, ask, token);
      var (books, _, answer) := Replied(s, j, ask, token);
      CountedKeeps(s.books.http, books.http, DaysOf(s.httpLog), s.day, WRITE_HTTP_PER_DAY, ask == Permit && answer == Granted);
      CountedKeeps(s.books.actions, books.actions, s.actionLog, s.day, WRITE_ACTIONS_PER_DAY,
                   ask == Ask.Count && answer == Granted);
      DaysAppend(s.httpLog, Grant(s.day, Some(j)));
    }
    hide BookInv, DaysOf, Replied, Counted;
  }

  /** The only way into the cache is the last message of a successful job. */
  lemma ServedDone(s: State, j: nat, token: ServerAnswer, lost: bool)
    requires j < |s.jobs| && s.jobs[j].up != []
    ensures var job, done := s.jobs[j], Served(s, j, token, lost).books.done;
            if job.up[0].Last? && job.up[0].final.Success? then
              done == s.books.done[(job.side.entryId, job.up[0].final.payload.hash) := job.up[0].final.payload]
            else done == s.books.done
  {
    if s.jobs[j].up[0].Question? {
      RepliedBooks(s, j, s.jobs[j].up[0].ask, token);
    }
    hide Replied, Counted, Answered;
  }

  /** Results enter the cache only under their own hash, and none is ever replaced. */
  lemma ServeKeepsDone(c: Contract, s: State, j: nat, token: ServerAnswer, lost: bool)
    requires CanStep(c, s, Serve(j, token, lost)) && JobInv(c, s.jobs[j]) && LiveInv(s, j) && DoneInv(s.books)
    ensures var after := Served(s, j, token, lost);
            && DoneInv(after.books)
            && (forall key | key in s.books.done ::
                  key in after.books.done && after.books.done[key] == s.books.done[key])
  {
    var job := s.jobs[j];
    ServedDone(s, j, token, lost);
    if job.up[0].Last? && job.up[0].final.Success? {
      SuccessHash(c, job);
    }
    hide Served, JobInv, Cleared;
  }

  lemma SuccessHash(c: Contract, job: JobState)
    requires JobInv(c, job) && job.up != [] && job.up[0].Last? && job.up[0].final.Success?
    ensures job.up[0].final.payload.hash == job.request.freigabe && !job.up[0].final.payload.repeated
    ensures job.side.entryId == job.request.entryId && IsWrite(job) && Cleared(job)
  {
  }

  lemma ServeKeepsLive(c: Contract, s: State, j: nat, token: ServerAnswer, lost: bool)
    requires CanStep(c, s, Serve(j, token, lost)) && JobInv(c, s.jobs[j]) && LiveInv(s, j) && DoneInv(s.books)
    ensures LiveInv(Served(s, j, token, lost), j)
  {
    if s.jobs[j].up[0].Last? {
      LastKeepsLive(c, s, j, token, lost);
    } else {
      QuestionKeepsLive(c, s, j, token, lost);
    }
  }

  /** The server's conclusion is the stored result of the job's own pair. */
  lemma ConcludeRemembers(books: Books, job: JobState, final: Final)
    requires FinalInv(job, final) && job.side.entryId == job.request.entryId
    ensures var (after, verdict) := Conclude(books, job.side, final);
            && !verdict.Open?
            && (verdict.Result? ==>
                  && KeyOf(job) in after.done
                  && (verdict.payload == after.done[KeyOf(job)]
                      || verdict.payload == after.done[KeyOf(job)].(repeated := true)))
  {
  }

  /** A last message closes the job and leaves nothing to be told. */
  lemma LastKeepsLive(c: Contract, s: State, j: nat, token: ServerAnswer, lost: bool)
    requires CanStep(c, s, Serve(j, token, lost)) && JobInv(c, s.jobs[j]) && s.jobs[j].up[0].Last?
    ensures LiveInv(Served(s, j, token, lost), j)
  {
    var job := s.jobs[j];
    WhoAsks(c, job);
    ConcludeRemembers(s.books, job, job.up[0].final);
    hide JobInv, Conclude;
    var next := Served(s, j, token, lost).jobs[j];
    assert next.proc.Closed? && next.up == [] && KeyOf(next) == KeyOf(job);
  }

  /** An answer clears only a job that waits for it, and only a report is answered "already done". */
  lemma AnsweredMarks(job: JobState, side: Side, answer: ServerAnswer, lost: bool, index: nat)
    requires job.up != [] && job.up[0].Question? && job.down == [] && (job.proc.Reporting? || job.proc.Waiting?)
    ensures var next := Answered(job, side, answer, lost, index);
            && next.request == job.request
            && next.side.preview == side.preview
            && (next.side.verdict.Open? ==> !lost && side.verdict.Open?)
            && (Cleared(next) ==> Cleared(job) || (job.proc.Reporting? && answer == Granted))
            && (Repeating(next) ==> job.proc.Reporting? && answer == Already)
  {
    assert Answered(job, side, answer, lost, index).down == if lost then [] else [answer];
  }

  lemma QuestionKeepsLive(c: Contract, s: State, j: nat, token: ServerAnswer, lost: bool)
    requires CanStep(c, s, Serve(j, token, lost)) && JobInv(c, s.jobs[j]) && LiveInv(s, j)
    requires s.jobs[j].up[0].Question?
    ensures LiveInv(Served(s, j, token, lost), j)
  {
    ReportedAnswer(c, s, j, token);
    var (_, side, answer) := Replied(s, j, s.jobs[j].up[0].ask, token);
    AnsweredMarks(s.jobs[j], side, answer, lost, |s.httpLog|);
    hide JobInv, Replied, Answered, Cleared, Repeating;
  }

  /** What the server can say to a report of the hash, and that only a waiting job is asking. */
  lemma ReportedAnswer(c: Contract, s: State, j: nat, token: ServerAnswer)
    requires j < |s.jobs| && JobInv(c, s.jobs[j]) && s.jobs[j].up != []
    ensures var job := s.jobs[j];
            && (job.up[0].Last? ==> job.proc.Closed? && |job.up| == 1)
            && (job.up[0].Question? ==> (job.proc.Reporting? || job.proc.Waiting?) && job.down == [])
            && (job.up[0].Question? ==>
                  var (books, side, answer) := Replied(s, j, job.up[0].ask, token);
                  && books.done == s.books.done && side.verdict == job.side.verdict && side.preview == job.side.preview
                  && (job.proc.Reporting? && answer == Granted && IsWrite(job) ==> KeyOf(job) !in books.done)
                  && (job.proc.Reporting? && answer == Already && IsWrite(job) ==> KeyOf(job) in books.done))
  {
    var job := s.jobs[j];
    WhoAsks(c, job);
    if job.up[0].Question? {
      RepliedBooks(s, j, job.up[0].ask, token);
      Replies(s, j, job.up[0].ask, token);
    }
    hide Replied, Counted, OnTask, WriteInv, GrantInv, PipeInv, Questions, Stands, Calls;
  }

  lemma ServeKeepsGrants(s: State, j: nat, token: ServerAnswer, lost: bool)
    requires j < |s.jobs| && s.jobs[j].up != [] && OwnGrants(s, j)
    ensures OwnGrants(Served(s, j, token, lost), j)
  {
    hide Replied, Conclude;
  }

  /** The other jobs stay as they were; only a confirmed pair could concern them, and it cannot. */
  lemma ServeKeepsOthers(c: Contract, s: State, j: nat, token: ServerAnswer, lost: bool, i: nat)
    requires CanStep(c, s, Serve(j, token, lost)) && i < |s.jobs| && i != j
    requires JobInv(c, s.jobs[j]) && LiveInv(s, j) && LiveInv(s, i) && OwnGrants(s, i) && DoneInv(s.books)
    ensures var after := Served(s, j, token, lost);
            after.jobs[i] == s.jobs[i] && LiveInv(after, i) && OwnGrants(after, i)
  {
    ServeKeepsDone(c, s, j, token, lost);
    var job := s.jobs[j];
    if job.up[0].Question? {
      RepliedBooks(s, j, job.up[0].ask, token);
    } else if job.up[0].final.Success? {
      SuccessHash(c, job);
    }
    hide JobInv, Replied, Counted, DoneInv;
  }

  lemma ServeKeeps(c: Contract, s: State, j: nat, token: ServerAnswer, lost: bool)
    requires Inv(c, s) && CanStep(c, s, Serve(j, token, lost))
    ensures Inv(c, Served(s, j, token, lost))
  {
    ServeKeepsJob(c, s, j, token, lost);
    ServeKeepsLive(c, s, j, token, lost);
    ServeKeepsGrants(s, j, token, lost);
    ServeKeepsBooks(s, j, token, lost);
    ServeKeepsDone(c, s, j, token, lost);
    var after := Served(s, j, token, lost);
    forall i | 0 <= i < |after.jobs| ensures JobInv(c, after.jobs[i]) && LiveInv(after, i) && OwnGrants(after, i) {
      if i != j {
        ServeKeepsOthers(c, s, j, token, lost, i);
      }
    }
    hide JobInv, LiveInv, OwnGrants, DoneInv, BookInv, Replied, Conclude;
  }

  lemma AbortKeepsJob(c: Contract, job: JobState, code: Code)
    requires JobInv(c, job) && job.side.verdict.Open?
    ensures JobInv(c, job.(side := job.side.(verdict := FinishedWith(code, job.side))))
  {
    var after := job.(side := job.side.(verdict := FinishedWith(code, job.side)));
    assert forall pc :: Stands(c, job, pc) == Stands(c, after, pc);
  }

  lemma AbortKeeps(c: Contract, s: State, j: nat, code: Code)
    requires Inv(c, s) && CanStep(c, s, Abort(j, code))
    ensures Inv(c, Stepped(c, s, Abort(j, code)))
  {
    var after := Stepped(c, s, Abort(j, code));
    AbortKeepsJob(c, s.jobs[j], code);
    hide JobInv;
    forall i | 0 <= i < |after.jobs| ensures JobInv(c, after.jobs[i]) && LiveInv(after, i) && OwnGrants(after, i) {
      GrantsStay(s, after, i);
    }
  }

  lemma StartKeeps(c: Contract, s: State, request: WriteRequest, preview: bool)
    requires Inv(c, s) && CanStep(c, s, if preview then StartPreview(request) else StartWrite(request))
    ensures Inv(c, Stepped(c, s, if preview then StartPreview(request) else StartWrite(request)))
  {
    var after := Stepped(c, s, if preview then StartPreview(request) else StartWrite(request));
    forall i | 0 <= i < |after.jobs| ensures JobInv(c, after.jobs[i]) && LiveInv(after, i) && OwnGrants(after, i) {
      if i < |s.jobs| {
        GrantsStay(s, after, i);
      }
    }
  }

  lemma ClockKeeps(c: Contract, s: State, step: Step)
    requires Inv(c, s) && CanStep(c, s, step) && (step.Renew? || step.NextDay?)
    ensures Inv(c, Stepped(c, s, step))
  {
    var after := Stepped(c, s, step);
    forall i | 0 <= i < |after.jobs| ensures LiveInv(after, i) && OwnGrants(after, i) {
      GrantsStay(s, after, i);
    }
    if step.Renew? {
      CountKeeps(s.books.http, DaysOf(s.httpLog), s.day, WRITE_HTTP_PER_DAY);
      DaysAppend(s.httpLog, Grant(s.day, None));
    } else {
      NextDayKeeps(s.books.http, DaysOf(s.httpLog), s.day, step.day, WRITE_HTTP_PER_DAY);
      NextDayKeeps(s.books.actions, s.actionLog, s.day, step.day, WRITE_ACTIONS_PER_DAY);
    }
    hide JobInv, BookInv, DayCounter.Count, DaysOf;
  }

  lemma StepKeeps(c: Contract, s: State, step: Step)
    requires Inv(c, s) && CanStep(c, s, step)
    ensures Inv(c, Stepped(c, s, step))
  {
    match step
    case StartWrite(request) => StartKeeps(c, s, request, false);
    case StartPreview(request) => StartKeeps(c, s, request, true);
    case Process(j, move) => ProcessKeeps(c, s, j, move);
    case Serve(j, token, lost) => ServeKeeps(c, s, j, token, lost);
    case Abort(j, code) => AbortKeeps(c, s, j, code);
    case _ => ClockKeeps(c, s, step);
  }

  lemma InitialInv(c: Contract)
    ensures Inv(c, INITIAL)
  {
  }

  lemma {:induction false} RunKeeps(c: Contract, from: State, steps: seq<Step>)
    requires Inv(c, from) && IsRun(c, from, steps)
    ensures Inv(c, PostProtocol.After(c, from, steps))
    decreases |steps|
  {
    hide Inv;
    if steps != [] {
      StepKeeps(c, from, steps[0]);
      RunKeeps(c, Stepped(c, from, steps[0]), steps[1..]);
    }
  }
}
