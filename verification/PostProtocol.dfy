/** The write-job protocol: job processes, their pipes and the server process, as a step relation.  A
    state keeps every job ever started together with the history of its provider requests.  A job's
    process may run on after the server has answered, for as long as the kill takes. */
module PostProtocol {
  import opened Wrappers
  import opened Redaktion
  import opened PostAdapter
  import opened DayCounter
  import opened PostPool

  // ----- the job process -------------------------------------------------------------------

  /** Where a job process stands.  `Calling(pc, k)` is about to ask question `k` of the call at `pc`, or to
      send it when all are answered; `Waiting(pc, k)` has asked question `k`. */
  datatype Proc =
    | Loading
    | Reporting(digest: string)
    | Calling(pc: Pc, k: nat)
    | Waiting(pc: Pc, k: nat)
    | Underway(pc: Pc)
    | Closing(final: Final)
    | Closed

  datatype JobState = JobState(
    request: WriteRequest, side: Side,
    alive: bool, proc: Proc, up: seq<Up>, down: seq<ServerAnswer>,
    task: Option<Task>, replies: seq<Reply>, sent: seq<Call>,
    grants: seq<nat>, counted: nat)

  function NewJob(request: WriteRequest, preview: bool): JobState {
    JobState(request, Side(request.entryId, preview, None, false, Open), true, Loading, [], [], None, [], [], [], 0)
  }

  datatype Move =
    | LoadFails(code: Code)
    | Load(task: Task)
    | AskNext
    | Hear
    | SendCall
    | Receive(reply: Reply)
    | SendLast
    | Die

  predicate Stands(c: Contract, job: JobState, pc: Pc) {
    && job.task.Some? && TaskOk(job.task.value)
    && Run(c, job.task.value, job.replies) == pc && CallOf(c, job.task.value, pc).Some?
  }

  /** The call a job is working on. */
  function Current(c: Contract, job: JobState, pc: Pc): Call
    requires Stands(c, job, pc)
  {
    CallOf(c, job.task.value, pc).value
  }

  function Questions(c: Contract, job: JobState, pc: Pc): seq<Ask>
    requires Stands(c, job, pc)
  {
    Asks(Current(c, job, pc), job.replies != [])
  }

  predicate CanMove(c: Contract, job: JobState, move: Move) {
    && job.alive
    && match move
       case LoadFails(_) => job.proc.Loading?
       case Load(task) => job.proc.Loading? && TaskOk(task) && Faithful(c, task)
       case AskNext =>
         job.proc.Calling? && Stands(c, job, job.proc.pc) && job.proc.k < |Questions(c, job, job.proc.pc)|
       case Hear => (job.proc.Reporting? || job.proc.Waiting?) && job.down != [] && job.task.Some? && TaskOk(job.task.value)
       case SendCall =>
         job.proc.Calling? && Stands(c, job, job.proc.pc) && job.proc.k == |Questions(c, job, job.proc.pc)|
       case Receive(_) => job.proc.Underway? && job.task.Some? && TaskOk(job.task.value)
       case SendLast => job.proc.Closing?
       case Die => true
  }

  /** The next program point: another call, the result, or the error. */
  function Enter(c: Contract, request: WriteRequest, task: Task, pc: Pc): Proc
    requires TaskOk(task)
  {
    if pc.Finished? then
      Closing(Success(Payload(task.effect.action, request.entryId, ApprovalHash(task.effect, c.hash),
                              FormatOf(task).value, pc.done, false)))
    else if pc.Failed? then Closing(Error(pc.code))
    else if CallOf(c, task, pc).Some? then Calling(pc, 0)
    else Closing(Error("source_unavailable"))
  }

  function Moved(c: Contract, job: JobState, move: Move): JobState
    requires CanMove(c, job, move)
  {
    match move
    case LoadFails(code) => job.(proc := Closing(Error(code)))
    case Load(task) =>
      if job.side.preview then job.(proc := Closing(Previewed))
      else
        var digest := ApprovalHash(task.effect, c.hash);
        if job.request.freigabe != digest then job.(proc := Closing(Error("nicht_freigegeben")))
        else job.(task := Some(task), proc := Reporting(digest), up := job.up + [Question(Report(digest))])
    case AskNext =>
      var Calling(pc, k) := job.proc;
      job.(proc := Waiting(pc, k), up := job.up + [Question(Questions(c, job, pc)[k])])
    case Hear =>
      var answer, heard := job.down[0], job.(down := job.down[1..]);
      if answer.Denied? then heard.(proc := Closing(Error(answer.code)))
      else if job.proc.Waiting? then heard.(proc := Calling(job.proc.pc, job.proc.k + 1))
      else if answer == Already then heard.(proc := Closing(Erledigt))
      else heard.(proc := Enter(c, job.request, job.task.value, Start(job.task.value)))
    case SendCall => job.(proc := Underway(job.proc.pc), sent := job.sent + [Current(c, job, job.proc.pc)])
    case Receive(reply) =>
      job.(replies := job.replies + [reply],
           proc := Enter(c, job.request, job.task.value, Advance(c, job.task.value, job.proc.pc, reply)))
    case SendLast => job.(proc := Closed, up := job.up + [Last(job.proc.final)])
    case Die => job.(alive := false)
  }

  // ----- the whole system ------------------------------------------------------------------

  /** One HTTP grant: its UTC day and the job it was given to, or none for a token exchange. */
  datatype Grant = Grant(day: Day, owner: Option<nat>)

  datatype State = State(
    jobs: seq<JobState>, current: Option<nat>, preview: Option<nat>,
    books: Books, day: Day, httpLog: seq<Grant>, actionLog: seq<Day>)

  const INITIAL: State := State([], None, None, Books(map[], map[], map[]), 0, [], [])

  datatype Step =
    | StartWrite(request: WriteRequest)
    | StartPreview(request: WriteRequest)
    | Process(j: nat, move: Move)
    | Serve(j: nat, token: ServerAnswer, lost: bool)   // the server takes one message; its reply may be lost
    | Abort(j: nat, code: Code)                        // deadline, dead worker, broken pipe, service stop
    | Renew                                            // a token exchange of a renewal thread
    | NextDay(day: Day)

  predicate Busy(jobs: seq<JobState>, slot: Option<nat>) {
    slot.Some? && slot.value < |jobs| && jobs[slot.value].side.verdict.Open?
  }

  predicate CanStep(c: Contract, s: State, step: Step) {
    match step
    case StartWrite(_) => !Busy(s.jobs, s.current)
    case StartPreview(_) => !Busy(s.jobs, s.preview)
    case Process(j, move) => j < |s.jobs| && CanMove(c, s.jobs[j], move)
    case Serve(j, _, _) => j < |s.jobs| && s.jobs[j].side.verdict.Open? && s.jobs[j].up != []
    case Abort(j, _) => j < |s.jobs| && s.jobs[j].side.verdict.Open?
    case Renew => true
    case NextDay(day) => s.day <= day
  }

  /** The server's reply to a question; the token's depends on the renewal, so it is arbitrary. */
  function Replied(s: State, j: nat, ask: Ask, token: ServerAnswer): (Books, Side, ServerAnswer)
    requires j < |s.jobs|
  {
    var side := s.jobs[j].side;
    if ask == Token then (s.books, side, if side.preview then Denied("vorschau_schreibt") else token)
    else ReplyTo(s.books, side, ask, s.day)
  }

  /** What serving a question does to a job, given the server's answer and the place of a permit in the log. */
  function Answered(job: JobState, side: Side, answer: ServerAnswer, lost: bool, index: nat): JobState
    requires job.up != [] && job.up[0].Question?
  {
    var ask, granted := job.up[0].ask, answer == Granted;
    job.(up := job.up[1..],
         side := if lost then side.(verdict := FinishedWith("worker_failed", side)) else side,
         down := if lost then job.down else job.down + [answer],
         grants := if ask == Permit && granted then job.grants + [index] else job.grants,
         counted := if ask == Ask.Count && granted then job.counted + 1 else job.counted)
  }

  function Served(s: State, j: nat, token: ServerAnswer, lost: bool): State
    requires j < |s.jobs| && s.jobs[j].up != []
  {
    var job := s.jobs[j];
    var rest := job.(up := job.up[1..]);
    match job.up[0]
    case Last(final) =>
      var (books, verdict) := Conclude(s.books, job.side, final);
      s.(books := books, jobs := s.jobs[j := rest.(side := job.side.(verdict := verdict))])
    case Question(ask) =>
      var (books, side, answer) := Replied(s, j, ask, token);
      var granted := answer == Granted;
      s.(books := books, jobs := s.jobs[j := Answered(job, side, answer, lost, |s.httpLog|)],
         httpLog := if ask == Permit && granted then s.httpLog + [Grant(s.day, Some(j))] else s.httpLog,
         actionLog := if ask == Ask.Count && granted then s.actionLog + [s.day] else s.actionLog)
  }

  function Stepped(c: Contract, s: State, step: Step): State
    requires CanStep(c, s, step)
  {
    match step
    case StartWrite(request) => s.(jobs := s.jobs + [NewJob(request, false)], current := Some(|s.jobs|))
    case StartPreview(request) => s.(jobs := s.jobs + [NewJob(request, true)], preview := Some(|s.jobs|))
    case Process(j, move) => s.(jobs := s.jobs[j := Moved(c, s.jobs[j], move)])
    case Serve(j, token, lost) => Served(s, j, token, lost)
    case Abort(j, code) =>
      var side := s.jobs[j].side;
      s.(jobs := s.jobs[j := s.jobs[j].(side := side.(verdict := FinishedWith(code, side)))])
    case Renew =>
      var (http, granted) := DayCounter.Count(s.books.http, s.day, WRITE_HTTP_PER_DAY);
      s.(books := s.books.(http := http),
         httpLog := if granted then s.httpLog + [Grant(s.day, None)] else s.httpLog)
    case NextDay(day) => s.(day := day)
  }

  /** A run from `from`: one state after the other, each by a step of the system. */
  ghost predicate IsRun(c: Contract, from: State, steps: seq<Step>)
    decreases |steps|
  {
    steps == [] || (CanStep(c, from, steps[0]) && IsRun(c, Stepped(c, from, steps[0]), steps[1..]))
  }

  function After(c: Contract, from: State, steps: seq<Step>): State
    requires IsRun(c, from, steps)
    decreases |steps|
  {
    if steps == [] then from else After(c, Stepped(c, from, steps[0]), steps[1..])
  }
}
