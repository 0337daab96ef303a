/** The service's HTTP boundary: one request, its checks in order, and the one answer the caller relies on:
    whether a failed write request is proven not to have been executed. */
module Server {
  import opened Wrappers
  import opened Redaktion
  import opened PostAdapter
  import opened PostPool
  import opened PostProtocol
  import opened PostSafety
  import opened PostTheorems

  /** The source's `ReportError`; `notExecuted` is its attribute of that meaning. */
  datatype Problem = Problem(status: nat, code: Code, notExecuted: bool)

  datatype Verb = GetVerb | PostVerb | OtherVerb

  /** The path, as far as the routing tells paths apart. */
  datatype Path = Healthz | PostRoute(preview: bool) | UnderPostPrefix | ReportRoute | Unknown

  /** An exception: the service's own, a cancellation, or any other. */
  datatype Fault = Rejection(problem: Problem) | Cancellation | Crash

  /** One request with what its checks say about it: the shared key, the approval header, body and arguments. */
  datatype HttpRequest = HttpRequest(
    verb: Verb, path: Path, rawPathTooLong: bool, pathTooLong: bool, hasBody: bool,
    key: Result<(), Fault>, header: Result<string, Fault>, arguments: Result<(), Fault>)

  /** How the handler behind the checks ended. */
  datatype Outcome = Completed(status: nat) | Failed(fault: Fault)

  datatype Response = Responds(status: nat, error: Option<Code>, notExecuted: bool) | Propagated

  const UNAPPROVED: Code := "nicht_freigegeben"

  function Rejecting(status: nat, code: Code, notExecuted: bool): Outcome {
    Outcome.Failed(Rejection(Problem(status, code, notExecuted)))
  }

  function Plain(status: nat, code: Code): Outcome {
    Rejecting(status, code, false)
  }

  /** The request passed the shared key and the form of the approval header. */
  predicate Entitled(request: HttpRequest) {
    && request.verb == PostVerb && request.path == PostRoute(false)
    && !request.rawPathTooLong && !request.pathTooLong && request.key.Ok? && request.header.Ok?
  }

  /** An entitled request has the approval in its form, and no other request has. */
  lemma EntitledIsFormed(request: HttpRequest)
    ensures Entitled(request) <==> Formed(request) && request.path == PostRoute(false)
  {
  }

  /** What the answer claims when it says "not executed": an entitled request was stopped before the pool, or
      the pool itself said so; the missing approval is answered without the claim. */
  predicate Proven(request: HttpRequest, pool: Option<Outcome>) {
    && Entitled(request)
    && match Stopped(request, pool)
       case Completed(_) => false
       case Failed(Cancellation) => false
       case Failed(Crash) => request.arguments.Err?
       case Failed(Rejection(problem)) =>
         problem.code != UNAPPROVED && (request.arguments.Err? || pool == None || problem.notExecuted)
  }

  /** Where an entitled request ends: at its arguments, at a missing pool, or in the pool. */
  function Stopped(request: HttpRequest, pool: Option<Outcome>): Outcome {
    if request.arguments.Err? then Outcome.Failed(request.arguments.error)
    else if pool == None then Plain(503, "schreiben_nicht_eingerichtet")
    else pool.value
  }

  predicate NotTheApproval(fault: Fault) {
    fault.Rejection? ==> fault.problem.code != "nicht_freigegeben"
  }

  /** What founds the claim: the request had its key and its approval in form, and then it was stopped by its arguments,
      or there is no pool, or the pool itself has proved that nothing was executed; a refused approval founds none. */
  lemma ClaimIsFounded(request: HttpRequest, pool: Option<Outcome>)
    ensures Proven(request, pool) <==>
              && request.path == PostRoute(false) && request.verb == PostVerb && request.key.Ok? && request.header.Ok?
              && !request.rawPathTooLong && !request.pathTooLong
              && if request.arguments.Err? then
                   !request.arguments.error.Cancellation? && NotTheApproval(request.arguments.error)
                 else
                   || pool == None
                   || (pool.value.Failed? && pool.value.fault.Rejection? && pool.value.fault.problem.notExecuted
                       && NotTheApproval(pool.value.fault))
  {
  }

  predicate TooLong(request: HttpRequest) {
    request.rawPathTooLong || request.pathTooLong
  }

  /** A path that is served, asked for with its own method. */
  predicate Served(request: HttpRequest) {
    && !TooLong(request)
    && ((request.path.PostRoute? && request.verb == if request.path.preview then GetVerb else PostVerb)
        || (request.path == ReportRoute && request.verb == GetVerb))
  }

  /** The request has passed the key and the form that its path asks for: an approval for a write, no body otherwise. */
  predicate Formed(request: HttpRequest) {
    && Served(request) && request.key.Ok?
    && if request.path == PostRoute(false) then request.header.Ok? else !request.hasBody
  }

  /** Where a request ends. */
  function Ends(request: HttpRequest, pool: Option<Outcome>, report: Outcome): Outcome {
    if TooLong(request) then Plain(400, "request_too_large")
    else if request.path == Healthz then
      if request.verb == GetVerb then Completed(200) else Plain(405, "method_not_allowed")
    else if request.path == UnderPostPrefix || request.path == Unknown then Plain(404, "route_not_found")
    else if !Served(request) then Plain(405, "method_not_allowed")
    else if request.key.Err? then Outcome.Failed(request.key.error)
    else if request.path == PostRoute(false) && request.header.Err? then Outcome.Failed(request.header.error)
    else if request.path != PostRoute(false) && request.hasBody then Plain(400, "unexpected_body")
    else if request.arguments.Err? then Outcome.Failed(request.arguments.error)
    else if request.path == ReportRoute then report
    else if pool == None then Plain(503, "schreiben_nicht_eingerichtet")
    else pool.value
  }

  /** What a request gets, by how far it comes: without the key nothing is served but the health of the service. */
  lemma EndsByCase(request: HttpRequest, pool: Option<Outcome>, report: Outcome, o: Outcome)
    requires o == Ends(request, pool, report)
    ensures TooLong(request) ==> o == Plain(400, "request_too_large")
    ensures !TooLong(request) && request.path == Healthz ==>
              o == if request.verb == GetVerb then Completed(200) else Plain(405, "method_not_allowed")
    ensures !TooLong(request) && (request.path == UnderPostPrefix || request.path == Unknown) ==>
              o == Plain(404, "route_not_found")
    ensures !TooLong(request) && !Served(request) && (request.path.PostRoute? || request.path == ReportRoute) ==>
              o == Plain(405, "method_not_allowed")
    ensures request.key.Err? ==> o.Failed? || request.path == Healthz
    ensures Served(request) && request.key.Err? ==> o == Outcome.Failed(request.key.error)
    ensures Served(request) && request.key.Ok? && !Formed(request) ==>
              o == if request.path == PostRoute(false) then Outcome.Failed(request.header.error)
                   else Plain(400, "unexpected_body")
    ensures Formed(request) && request.arguments.Err? ==> o == Outcome.Failed(request.arguments.error)
    ensures Formed(request) && request.arguments.Ok? ==>
              o == if request.path == ReportRoute then report
                   else if pool == None then Plain(503, "schreiben_nicht_eingerichtet") else pool.value
  {
  }

  /** A proven claim is answered with 200, so that the caller reads it. */
  function Claim(proven: bool, status: nat, code: Code): Response {
    Responds(if proven then 200 else status, Some(code), proven)
  }

  /** The middleware.  `pool` is how the write pool would end this request, `None` if there is no pool; `report`
      is the same for the reading side. */
  method Errors(request: HttpRequest, pool: Option<Outcome>, report: Outcome) returns (r: Response)
    ensures r.Responds? && r.notExecuted <==> Proven(request, pool)
    ensures r.Responds? && r.notExecuted ==> r.status == 200 && r.error.Some?
    ensures Entitled(request) ==>
              match Stopped(request, pool)
              case Completed(status) => r == Responds(status, None, false)
              case Failed(Cancellation) => r == Propagated
              case Failed(Crash) => r == Claim(Proven(request, pool), 503, "internal_error")
              case Failed(Rejection(problem)) => r == Claim(Proven(request, pool), problem.status, problem.code)
    ensures !Entitled(request) ==>
              match Ends(request, pool, report)
              case Completed(status) => r == Responds(status, None, false)
              case Failed(Cancellation) => r == Propagated
              case Failed(Crash) => r == Responds(503, Some("internal_error"), false)
              case Failed(Rejection(problem)) => r == Responds(problem.status, Some(problem.code), false)
  {
    var writeRoute := (request.path.PostRoute? || request.path.UnderPostPrefix?) && request.verb == PostVerb;
    var outcome, headerChecked, dispatched := Handle(request, pool, report);
    match outcome {
      case Completed(status) =>
        return Responds(status, None, false);
      case Failed(Cancellation) =>
        return Propagated;
      case Failed(Rejection(problem)) =>
        if writeRoute && headerChecked && problem.code != UNAPPROVED && (!dispatched || problem.notExecuted) {
          return Responds(200, Some(problem.code), true);
        }
        return Responds(problem.status, Some(problem.code), false);
      case Failed(Crash) =>
        if writeRoute && headerChecked && !dispatched {
          return Responds(200, Some("internal_error"), true);
        }
        return Responds(503, Some("internal_error"), false);
    }
  }

  /** The checks in their order; the two flags say how far the request came. */
  method Handle(request: HttpRequest, pool: Option<Outcome>, report: Outcome)
    returns (outcome: Outcome, headerChecked: bool, dispatched: bool)
    ensures outcome == Ends(request, pool, report)
    ensures dispatched ==> request.key.Ok?
    ensures headerChecked <==> Entitled(request)
    ensures dispatched ==> request.path.PostRoute? && request.arguments.Ok? && pool.Some?
    ensures headerChecked ==>
              && outcome == Stopped(request, pool)
              && (dispatched <==> request.arguments.Ok? && pool.Some?)
  {
    headerChecked, dispatched := false, false;
    if request.rawPathTooLong || request.pathTooLong {
      return Plain(400, "request_too_large"), headerChecked, dispatched;
    }
    if request.path == Healthz {
      outcome := if request.verb == GetVerb then Completed(200) else Plain(405, "method_not_allowed");
      return;
    }
    if request.path.PostRoute? {
      if request.verb != (if request.path.preview then GetVerb else PostVerb) {
        return Plain(405, "method_not_allowed"), headerChecked, dispatched;
      }
      if request.key.Err? {
        return Outcome.Failed(request.key.error), headerChecked, dispatched;
      }
      if request.path.preview {
        if request.hasBody {
          return Plain(400, "unexpected_body"), headerChecked, dispatched;
        }
      } else {
        if request.header.Err? {
          return Outcome.Failed(request.header.error), headerChecked, dispatched;
        }
        headerChecked := true;
      }
      if request.arguments.Err? {
        return Outcome.Failed(request.arguments.error), headerChecked, dispatched;
      }
      if pool == None {
        return Plain(503, "schreiben_nicht_eingerichtet"), headerChecked, dispatched;
      }
      dispatched := true;
      return pool.value, headerChecked, dispatched;
    }
    if request.path != ReportRoute {
      return Plain(404, "route_not_found"), headerChecked, dispatched;
    }
    if request.verb != GetVerb {
      return Plain(405, "method_not_allowed"), headerChecked, dispatched;
    }
    if request.key.Err? {
      return Outcome.Failed(request.key.error), headerChecked, dispatched;
    }
    if request.hasBody {
      return Plain(400, "unexpected_body"), headerChecked, dispatched;
    }
    outcome := if request.arguments.Err? then Outcome.Failed(request.arguments.error) else report;
  }

  // ----- the pool behind it ----------------------------------------------------------------

  /** How `WritePool.run` ends for a write request: turned away, or with the verdict of its job. */
  function PoolOutcome(s: State, closed: bool, job: Option<nat>, status: Code -> nat): (o: Option<Outcome>)
    requires job.Some? ==> job.value < |s.jobs|
  {
    if closed then Some(Rejecting(503, "service_stopping", true))
    else if job == None then Some(Rejecting(429, "schreiben_belegt", true))
    else
      match s.jobs[job.value].side.verdict
      case Open => None
      case Result(_) => Some(Completed(200))
      case PreviewResult => Some(Completed(200))
      case Failure(code, notExecuted) => Some(Rejecting(status(code), code, notExecuted))
  }

  /** A write request that was turned away at the pool is answered with the claim, because no job was started for it; one
      with a result is answered with 200 and without it. */
  lemma PoolAnswers(s: State, request: HttpRequest, job: Option<nat>, status: Code -> nat)
    requires Entitled(request) && request.arguments.Ok? && (job.Some? ==> job.value < |s.jobs|)
    ensures Proven(request, PoolOutcome(s, true, job, status)) && Proven(request, PoolOutcome(s, false, None, status))
    ensures PoolOutcome(s, true, job, status) == Some(Rejecting(503, "service_stopping", true))
    ensures PoolOutcome(s, false, None, status) == Some(Rejecting(429, "schreiben_belegt", true))
    ensures job.Some? && s.jobs[job.value].side.verdict.Result? ==>
              && PoolOutcome(s, false, job, status) == Some(Completed(200))
              && !Proven(request, PoolOutcome(s, false, job, status))
  {
  }

  /** An answer that says "not executed" is true for ever: the job of the request, if one was started at all,
      never makes a request that could have an effect at the provider, in no continuation of the run. */
  lemma FlaggedAnswerIsTrue(
      c: Contract, before: seq<Step>, s: State, later: seq<Step>, request: HttpRequest, j: nat, status: Code -> nat, k: nat)
    requires Reached(c, before, s) && j < |s.jobs| && !s.jobs[j].side.verdict.Open?
    requires request.arguments.Ok? && Proven(request, PoolOutcome(s, false, Some(j), status))
    requires IsRun(c, s, later)
    requires j < |PostProtocol.After(c, s, later).jobs| && k < |PostProtocol.After(c, s, later).jobs[j].sent|
    ensures var call := PostProtocol.After(c, s, later).jobs[j].sent[k]; call.Api? && call.op == VideoStatus
  {
    MethodsTellApart(PostProtocol.After(c, s, later).jobs[j].sent[k]);
    ReachedInv(c, before, s);
    RunKeeps(c, s, later);
    VerdictIsFinal(c, s, later, j);
    assert JobInv(c, PostProtocol.After(c, s, later).jobs[j]);
  }

  /** Silence about execution is no accident either: after its job has started, a request is answered with the
      claim exactly if the job was never granted a write, and was not turned down for its approval. */
  lemma FlagIsTheGrant(c: Contract, steps: seq<Step>, s: State, request: HttpRequest, j: nat, status: Code -> nat)
    requires Reached(c, steps, s) && j < |s.jobs| && s.jobs[j].side.verdict.Failure?
    requires Entitled(request) && request.arguments.Ok?
    ensures Proven(request, PoolOutcome(s, false, Some(j), status))
       <==> !s.jobs[j].side.writeStarted && s.jobs[j].side.verdict.code != UNAPPROVED
  {
    ReachedInv(c, steps, s);
    assert JobInv(c, s.jobs[j]);
  }
}
