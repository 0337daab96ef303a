/** The server's half of the write-job protocol: its counters and its cache of results, its answers to a job's
    questions, and its verdict on a job. */
module PostPool {
  import opened Wrappers
  import opened Redaktion
  import opened PostAdapter
  import opened DayCounter

  const WRITE_ACTIONS_PER_DAY: nat := 5
  const WRITE_HTTP_PER_DAY: nat := 45

  // ----- messages --------------------------------------------------------------------------

  /** The last message of a job: the result, "already done", an error, or a preview. */
  datatype Final = Success(payload: Payload) | Erledigt | Error(code: Code) | Previewed

  datatype Up = Question(ask: Ask) | Last(final: Final)

  // ----- the server's half -----------------------------------------------------------------

  type Key = (string, string)

  /** `WritePool`'s own state: both counters and the results of confirmed jobs. */
  datatype Books = Books(actions: Store, http: Store, done: map<Key, Payload>)

  datatype Verdict =
    | Open
    | Result(payload: Payload)
    | PreviewResult
    | Failure(code: Code, notExecuted: bool)

  /** What the server process knows of a job. */
  datatype Side = Side(
    entryId: string, preview: bool, digest: Option<string>, writeStarted: bool, verdict: Verdict)

  predicate IsLowerHex(c: char) {
    '0' <= c <= '9' || 'a' <= c <= 'f'
  }

  predicate HashForm(digest: string) {
    |digest| == |HASH_LABEL| + 64 && HASH_LABEL <= digest && forall i | |HASH_LABEL| <= i < |digest| :: IsLowerHex(digest[i])
  }

  /** The form of an approval hash: its label and 64 lower hex digits. */
  lemma HashFormIs(digest: string)
    ensures HashForm(digest) <==>
              && "freigabe:v2:sha256:" <= digest && |digest| == 19 + 64
              && forall i | 19 <= i < |digest| :: '0' <= digest[i] <= '9' || 'a' <= digest[i] <= 'f'
  {
    assert |"freigabe:v2:sha256:"| == 19;
  }

  /** `_reply` to a question other than the token. */
  function ReplyTo(books: Books, side: Side, ask: Ask, day: Day): (Books, Side, ServerAnswer)
    requires ask != Token
  {
    if side.preview then (books, side, Denied("vorschau_schreibt"))
    else
      match ask
      case Permit =>
        var (http, granted) := DayCounter.Count(books.http, day, WRITE_HTTP_PER_DAY);
        (books.(http := http), side, if granted then Granted else Denied("schreib_http_tageslimit"))
      case Count =>
        var (actions, granted) := DayCounter.Count(books.actions, day, WRITE_ACTIONS_PER_DAY);
        (books.(actions := actions), side, if granted then Granted else Denied("schreib_tageslimit"))
      case Write => (books, side.(writeStarted := true), Granted)
      case Report(digest) =>
        if !HashForm(digest) then (books, side.(digest := None), Denied("worker_failed"))
        else (books, side.(digest := Some(digest)),
              if (side.entryId, digest) in books.done then Already else Granted)
  }

  /** The outcome of the supervision, from the job's last message. */
  function Conclude(books: Books, side: Side, final: Final): (Books, Verdict) {
    match final
    case Success(payload) => (books.(done := books.done[(side.entryId, payload.hash) := payload]), Result(payload))
    case Previewed => (books, PreviewResult)
    case Erledigt =>
      if side.digest.Some? && (side.entryId, side.digest.value) in books.done then
        (books, Result(books.done[(side.entryId, side.digest.value)].(repeated := true)))
      else (books, FinishedWith("worker_failed", side))
    case Error(code) => (books, FinishedWith(code, side))
  }

  /** `_finish_error`: the one place that decides whether non-execution is proven. */
  function FinishedWith(code: Code, side: Side): Verdict {
    Failure(code, !side.writeStarted)
  }

  /** The answers, by question: a preview is denied everything and changes nothing; a permit and a count each draw on a
      counter of their own; the write grant is always given, and remembered; a report is answered by what is stored. */
  lemma AnswersByQuestion(books: Books, side: Side, ask: Ask, day: Day)
    requires ask != Token
    ensures var (after, mine, answer) := ReplyTo(books, side, ask, day);
            && (side.preview ==> after == books && mine == side && answer == Denied("vorschau_schreibt"))
            && (ask == Write && !side.preview ==> after == books && mine == side.(writeStarted := true) && answer == Granted)
            && (ask != Write ==> mine.writeStarted == side.writeStarted)
            && (ask == Permit ==> after.actions == books.actions && after.done == books.done && mine == side)
            && (ask == Ask.Count ==> after.http == books.http && after.done == books.done && mine == side)
            && (ask == Permit && !side.preview && Today(books.http, day) >= 45 ==> answer == Denied("schreib_http_tageslimit"))
            && (ask == Ask.Count && !side.preview && Today(books.actions, day) >= 5 ==> answer == Denied("schreib_tageslimit"))
            && (ask.Report? && !side.preview ==>
                  && after == books
                  && (if HashForm(ask.digest) then
                        mine.digest == Some(ask.digest)
                        && answer == if (side.entryId, ask.digest) in books.done then Already else Granted
                      else mine.digest == None && answer == Denied("worker_failed")))
  {
    hide HashForm;
  }

  /** The verdicts, by message: only a success enters the store, "already done" needs a stored result of the reported hash
      and marks it as repeated, and every failure claims non-execution exactly if no write was granted. */
  lemma VerdictsByMessage(books: Books, side: Side, final: Final)
    ensures var (after, verdict) := Conclude(books, side, final);
            && (!final.Success? ==> after == books)
            && (final.Success? ==>
                  && after == books.(done := books.done[(side.entryId, final.payload.hash) := final.payload])
                  && verdict == Result(final.payload))
            && (final.Erledigt? ==>
                  if side.digest.Some? && (side.entryId, side.digest.value) in books.done then
                    verdict == Result(books.done[(side.entryId, side.digest.value)].(repeated := true))
                  else verdict == Failure("worker_failed", !side.writeStarted))
            && (final.Error? ==> verdict == Failure(final.code, !side.writeStarted))
            && (final.Previewed? ==> verdict == PreviewResult)
  {
  }

  /** The source's object with its update in place; the job record is the server's `Job`. */
  class Job {
    const entryId: string
    const preview: bool
    var digest: Option<string>
    var writeStarted: bool

    constructor (entryId: string, preview: bool)
      ensures this.entryId == entryId && this.preview == preview && digest == None && !writeStarted
    {
      this.entryId, this.preview, digest, writeStarted := entryId, preview, None, false;
    }

    ghost function Record(): Side
      reads this
    {
      Side(entryId, preview, digest, writeStarted, Open)
    }
  }

  class WritePool {
    const actions: Counter
    const http: Counter
    var done: map<Key, Payload>

    ghost predicate Valid() {
      actions != http
    }

    constructor ()
      ensures Valid() && View() == Books(map[], map[], map[])
      ensures fresh(actions) && fresh(http)
    {
      actions := new Counter();
      http := new Counter();
      done := map[];
    }

    ghost function View(): Books
      reads this, actions, http
    {
      Books(actions.store, http.store, done)
    }

    method Reply(job: Job, ask: Ask, today: Day) returns (answer: ServerAnswer)
      requires Valid() && ask != Token
      modifies job, actions, http
      ensures (View(), job.Record(), answer) == ReplyTo(old(View()), old(job.Record()), ask, today)
    {
      if job.preview {
        return Denied("vorschau_schreibt");
      }
      match ask {
        case Permit =>
          var granted := http.CountOnce(today, WRITE_HTTP_PER_DAY);
          return if granted then Granted else Denied("schreib_http_tageslimit");
        case Count =>
          var granted := actions.CountOnce(today, WRITE_ACTIONS_PER_DAY);
          return if granted then Granted else Denied("schreib_tageslimit");
        case Write =>
          job.writeStarted := true;
          return Granted;
        case Report(digest) =>
          job.digest := if HashForm(digest) then Some(digest) else None;
          if job.digest == None {
            return Denied("worker_failed");
          }
          return if (job.entryId, digest) in done then Already else Granted;
      }
    }

    method Supervised(job: Job, final: Final) returns (verdict: Verdict)
      requires Valid()
      modifies this`done
      ensures (View(), verdict) == Conclude(old(View()), job.Record(), final)
    {
      match final {
        case Success(payload) =>
          done := done[(job.entryId, payload.hash) := payload];
          return Result(payload);
        case Previewed =>
          return PreviewResult;
        case Erledigt =>
          if job.digest == None || (job.entryId, job.digest.value) !in done {
            return FinishError(job, "worker_failed");
          }
          return Result(done[(job.entryId, job.digest.value)].(repeated := true));
        case Error(code) =>
          return FinishError(job, code);
      }
    }

    function FinishError(job: Job, code: Code): (v: Verdict)
      reads job
      ensures v == FinishedWith(code, job.Record())
    {
      Failure(code, !job.writeStarted)
    }
  }
}
