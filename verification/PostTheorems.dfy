/** The promises of the write path, over every run of the protocol from its start. */
module PostTheorems {
  import opened Wrappers
  import opened Utf8
  import opened Redaktion
  import opened PostAdapter
  import opened DayCounter
  import opened PostPool
  import opened PostProtocol
  import opened PostSafety

  /** A reachable state: whatever the jobs, the provider, the clock and the failures did. */
  ghost predicate Reached(c: Contract, steps: seq<Step>, s: State) {
    IsRun(c, INITIAL, steps) && s == PostProtocol.After(c, INITIAL, steps)
  }

  lemma ReachedInv(c: Contract, steps: seq<Step>, s: State)
    requires Reached(c, steps, s)
    ensures Inv(c, s)
  {
    InitialInv(c);
    RunKeeps(c, INITIAL, steps);
  }

  // ----- the verdict -----------------------------------------------------------------------

  /** An answer that proves non-execution is true: no request of the job could have had an effect at the provider, all
      have asked for the state of a video.  The state may be any later one, so none ever will. */
  lemma NotExecutedIsTrue(c: Contract, steps: seq<Step>, s: State, j: nat, k: nat)
    requires Reached(c, steps, s) && j < |s.jobs| && k < |s.jobs[j].sent|
    requires s.jobs[j].side.verdict.Failure? && s.jobs[j].side.verdict.notExecuted
    ensures s.jobs[j].sent[k].Api? && s.jobs[j].sent[k].op == VideoStatus
  {
    MethodsTellApart(s.jobs[j].sent[k]);
    ReachedInv(c, steps, s);
    assert JobInv(c, s.jobs[j]);
  }

  /** An answer once given stays the answer. */
  lemma {:induction false} VerdictIsFinal(c: Contract, from: State, steps: seq<Step>, j: nat)
    requires IsRun(c, from, steps) && j < |from.jobs| && !from.jobs[j].side.verdict.Open?
    ensures var s := PostProtocol.After(c, from, steps);
            j < |s.jobs| && s.jobs[j].side.verdict == from.jobs[j].side.verdict
    decreases |steps|
  {
    if steps != [] {
      assert Stepped(c, from, steps[0]).jobs[j].side.verdict == from.jobs[j].side.verdict;
      VerdictIsFinal(c, Stepped(c, from, steps[0]), steps[1..], j);
    }
  }

  // ----- what is sent ----------------------------------------------------------------------

  lemma {:induction false} CallsAt(c: Contract, t: Task, replies: seq<Reply>, k: nat)
    requires TaskOk(t) && |Calls(c, t, replies)| == |replies| && k < |replies|
    ensures Some(Calls(c, t, replies)[k]) == CallOf(c, t, Run(c, t, replies[..k]))
    decreases |replies|
  {
    hide Run, CallOf, TaskOk;
    var before := replies[..|replies| - 1];
    AtMostOneEach(c, t, before);
    if k < |before| {
      CallsAt(c, t, before, k);
      assert before[..k] == replies[..k];
    }
  }

  lemma {:induction false} AtMostOneEach(c: Contract, t: Task, replies: seq<Reply>)
    requires TaskOk(t)
    ensures |Calls(c, t, replies)| <= |replies|
    decreases |replies|
  {
    hide Run, CallOf, TaskOk;
    if replies != [] {
      AtMostOneEach(c, t, replies[..|replies| - 1]);
    }
  }

  /** Every request of a job is the one its approved effect, its bytes and the earlier replies determine:
      a job whose hash is not the approved one sends nothing at all. */
  lemma OnlyTheApprovedEffect(c: Contract, steps: seq<Step>, s: State, j: nat, k: nat)
    requires Reached(c, steps, s) && j < |s.jobs| && k < |s.jobs[j].sent|
    ensures var job := s.jobs[j];
            && OnTask(c, job) && !job.side.preview && k <= |job.replies|
            && Some(job.sent[k]) == CallOf(c, job.task.value, Run(c, job.task.value, job.replies[..k]))
  {
    ReachedInv(c, steps, s);
    var job := s.jobs[j];
    assert JobInv(c, job);
    var t := job.task.value;
    if k < |job.replies| {
      assert job.sent[..|job.replies|] == Calls(c, t, job.replies);
      CallsAt(c, t, job.replies, k);
    } else {
      assert job.replies[..k] == job.replies;
    }
  }

  predicate Collision(c: Contract, x: seq<Byte>, y: seq<Byte>) {
    x != y && c.hash(x) == c.hash(y)
  }

  /** One approval hash stands for one task, unless the hash function collides. */
  lemma OneHashOneTask(c: Contract, a: Task, b: Task)
    requires TaskOk(a) && TaskOk(b) && Faithful(c, a) && Faithful(c, b)
    requires ApprovalHash(a.effect, c.hash) == ApprovalHash(b.effect, c.hash)
    ensures a == b || exists x, y :: Collision(c, x, y)
  {
    ApprovalIsSpecific(a.effect, b.effect, c.hash);
    if a.effect != b.effect {
      var x, y :| x != y && c.hash(x) == c.hash(y);
      assert Collision(c, x, y);
    } else if a.data != b.data {
      var i :| 0 <= i < |a.data| && a.data[i] != b.data[i];
      assert Collision(c, a.data[i], b.data[i]);
    }
  }

  /** Two jobs of any two runs that were approved with one hash and heard the same replies send the same
      requests, byte for byte: nothing outside the approved effect reaches the provider. */
  lemma OneHashOneSequence(
      c: Contract, stepsA: seq<Step>, a: State, i: nat, stepsB: seq<Step>, b: State, j: nat, k: nat)
    requires Reached(c, stepsA, a) && i < |a.jobs| && k < |a.jobs[i].sent|
    requires Reached(c, stepsB, b) && j < |b.jobs| && k < |b.jobs[j].sent|
    requires a.jobs[i].request.freigabe == b.jobs[j].request.freigabe
    requires k <= |a.jobs[i].replies| && k <= |b.jobs[j].replies|
    requires a.jobs[i].replies[..k] == b.jobs[j].replies[..k]
    ensures a.jobs[i].sent[k] == b.jobs[j].sent[k] || exists x, y :: Collision(c, x, y)
  {
    OnlyTheApprovedEffect(c, stepsA, a, i, k);
    OnlyTheApprovedEffect(c, stepsB, b, j, k);
    OneHashOneTask(c, a.jobs[i].task.value, b.jobs[j].task.value);
  }

  /** An approval names its organization: two services with one hash function that are asked to post with the same
      approval, whatever each has read, post for the same organization, unless the hash collides. */
  lemma OneHashOneOrganization(
      a: Contract, b: Contract, one: WriteRequest, other: WriteRequest, gatewayA: Gateway, gatewayB: Gateway)
    requires a.hash == b.hash && one.action == Post && other.action == Post && one.freigabe == other.freigabe
    requires Approved(a, one, gatewayA) && Approved(b, other, gatewayB)
    ensures a.organization == b.organization || exists x, y :: Collision(a, x, y)
  {
    var s, t := TaskFor(a, one, gatewayA), TaskFor(b, other, gatewayB);
    assert s.effect.target == a.organization && t.effect.target == b.organization;
    hide ApprovalHash, TaskFor;
    ApprovalIsSpecific(s.effect, t.effect, a.hash);
    if s.effect != t.effect {
      var x, y :| x != y && a.hash(x) == a.hash(y);
      assert Collision(a, x, y);
    }
  }

  // ----- counting --------------------------------------------------------------------------

  /** On no day are more than 45 HTTP attempts of the write path granted, token exchanges included, and on
      no day more than 5 actions are counted. */
  lemma DailyCaps(c: Contract, steps: seq<Step>, s: State, day: Day)
    requires Reached(c, steps, s)
    ensures GrantsOn(DaysOf(s.httpLog), day) <= 45
    ensures GrantsOn(s.actionLog, day) <= 5
  {
    ReachedInv(c, steps, s);
  }

  /** Every request has a grant of its own in the log, no two requests share one, and a job that has sent
      anything has counted its action exactly once. */
  lemma EveryRequestHasItsGrant(c: Contract, steps: seq<Step>, s: State, i: nat, k: nat, j: nat, l: nat)
    requires Reached(c, steps, s)
    requires i < |s.jobs| && k < |s.jobs[i].sent| && j < |s.jobs| && l < |s.jobs[j].sent|
    ensures k < |s.jobs[i].grants| && s.jobs[i].grants[k] < |s.httpLog|
    ensures l < |s.jobs[j].grants| && (i, k) != (j, l) ==> s.jobs[i].grants[k] != s.jobs[j].grants[l]
    ensures s.jobs[i].counted == 1
  {
    ReachedInv(c, steps, s);
    assert JobInv(c, s.jobs[i]) && OwnGrants(s, i) && JobInv(c, s.jobs[j]) && OwnGrants(s, j);
    if i == j && k != l {
      Increasing(s.jobs[i].grants, k, l);
      Increasing(s.jobs[i].grants, l, k);
    }
  }

  lemma {:induction false} Increasing(grants: seq<nat>, k: nat, l: nat)
    requires forall i | 0 < i < |grants| :: grants[i - 1] < grants[i]
    requires k < |grants| && l < |grants|
    ensures k < l ==> grants[k] < grants[l]
    decreases l
  {
    if k + 1 < l {
      Increasing(grants, k, l - 1);
    }
  }

  /** At most one write job and one preview are open at any time. */
  lemma OneWriteJob(c: Contract, steps: seq<Step>, s: State, i: nat, j: nat)
    requires Reached(c, steps, s) && i < |s.jobs| && j < |s.jobs|
    requires s.jobs[i].side.verdict.Open? && s.jobs[j].side.verdict.Open?
    requires s.jobs[i].side.preview == s.jobs[j].side.preview
    ensures i == j
  {
    ReachedInv(c, steps, s);
    assert LiveInv(s, i) && LiveInv(s, j);
  }

  // ----- repeated requests -----------------------------------------------------------------

  /** A job for a confirmed pair that was started later: it is turned away at its hash report, and the
      only result it can end with is the stored one. */
  predicate Barred(job: JobState, key: Key, stored: Payload) {
    job.side.preview || KeyOf(job) != key
    || (&& job.sent == []
        && (job.side.verdict.Result? ==> job.side.verdict.payload == stored.(repeated := true))
        && match job.proc
           case Loading => true
           case Reporting(_) => job.down == [] || job.down[0] != Granted
           case Closing(final) => !final.Success?
           case Closed => job.up != [] ==> job.up[0].Last? && !job.up[0].final.Success?
           case _ => false)
  }

  ghost predicate Settled(s: State, key: Key, stored: Payload, since: nat) {
    && since <= |s.jobs|
    && key in s.books.done && s.books.done[key] == stored
    && forall j | since <= j < |s.jobs| :: Barred(s.jobs[j], key, stored)
  }

  lemma ServedBarred(c: Contract, s: State, j: nat, token: ServerAnswer, lost: bool, key: Key, stored: Payload)
    requires CanStep(c, s, Serve(j, token, lost)) && JobInv(c, s.jobs[j]) && LiveInv(s, j)
    requires Barred(s.jobs[j], key, stored) && key in s.books.done && s.books.done[key] == stored
    ensures Barred(Served(s, j, token, lost).jobs[j], key, stored)
  {
    var job := s.jobs[j];
    WhoAsks(c, job);
    if job.up[0].Question? {
      RepliedBooks(s, j, job.up[0].ask, token);
      Replies(s, j, job.up[0].ask, token);
      assert job.proc.Reporting? ==> job.up[0].ask.digest == job.request.freigabe;
    }
    hide PipeInv, WriteInv, GrantInv, OnTask, Calls, Replied, Counted, DayCounter.Count;
  }

  lemma StepSettled(c: Contract, s: State, step: Step, key: Key, stored: Payload, since: nat)
    requires Inv(c, s) && CanStep(c, s, step) && Settled(s, key, stored, since)
    ensures Settled(Stepped(c, s, step), key, stored, since)
  {
    var after := Stepped(c, s, step);
    match step {
      case Serve(j, token, lost) =>
        assert JobInv(c, s.jobs[j]) && LiveInv(s, j);
        ServeKeepsDone(c, s, j, token, lost);
        if j >= since {
          ServedBarred(c, s, j, token, lost, key, stored);
        }
        forall i | since <= i < |after.jobs| ensures Barred(after.jobs[i], key, stored) {
          if i != j {
            ServeKeepsOthers(c, s, j, token, lost, i);
          }
        }
      case Process(j, move) =>
        assert JobInv(c, s.jobs[j]);
        if j >= since {
          MovedBarred(c, s.jobs[j], move, key, stored);
        }
      case _ =>
    }
  }

  lemma MovedBarred(c: Contract, job: JobState, move: Move, key: Key, stored: Payload)
    requires JobInv(c, job) && CanMove(c, job, move) && Barred(job, key, stored)
    ensures Barred(Moved(c, job, move), key, stored)
  {
    hide WriteInv, GrantInv, OnTask, Calls, ApprovalHash, TaskOk, Run, Advance, Enter, Start;
  }

  lemma {:induction false} RunSettled(
      c: Contract, from: State, steps: seq<Step>, key: Key, stored: Payload, since: nat)
    requires Inv(c, from) && IsRun(c, from, steps) && Settled(from, key, stored, since)
    ensures Settled(PostProtocol.After(c, from, steps), key, stored, since)
    decreases |steps|
  {
    hide Inv, Settled;
    if steps != [] {
      StepSettled(c, from, steps[0], key, stored, since);
      StepKeeps(c, from, steps[0]);
      RunSettled(c, Stepped(c, from, steps[0]), steps[1..], key, stored, since);
    }
  }

  /** Once a pair of entry and hash is confirmed, it stays confirmed with that result, and no job started
      afterwards for the pair sends any request; if such a job ends with a result, it is the stored one,
      marked as repeated. */
  lemma ConfirmedOnceSentOnce(
      c: Contract, before: seq<Step>, s: State, later: seq<Step>, key: Key, j: nat)
    requires Reached(c, before, s) && key in s.books.done && IsRun(c, s, later)
    requires var end := PostProtocol.After(c, s, later);
             |s.jobs| <= j < |end.jobs| && KeyOf(end.jobs[j]) == key && IsWrite(end.jobs[j])
    ensures var end := PostProtocol.After(c, s, later);
            && key in end.books.done && end.books.done[key] == s.books.done[key]
            && end.jobs[j].sent == []
            && (end.jobs[j].side.verdict.Result? ==>
                  end.jobs[j].side.verdict.payload == s.books.done[key].(repeated := true))
  {
    ReachedInv(c, before, s);
    RunSettled(c, s, later, key, s.books.done[key], |s.jobs|);
    assert Barred(PostProtocol.After(c, s, later).jobs[j], key, s.books.done[key]);
  }

  /** A job that was told "already done" finds the stored result when it says so. */
  lemma AlreadyDoneFindsItsResult(c: Contract, steps: seq<Step>, s: State, j: nat)
    requires Reached(c, steps, s) && j < |s.jobs| && IsWrite(s.jobs[j])
    requires s.jobs[j].up == [Last(Erledigt)]
    ensures var job := s.jobs[j];
            && KeyOf(job) in s.books.done
            && Conclude(s.books, job.side, Erledigt) == (s.books, Result(s.books.done[KeyOf(job)].(repeated := true)))
  {
    ReachedInv(c, steps, s);
    assert JobInv(c, s.jobs[j]) && LiveInv(s, j);
  }

  /** A result is never forgotten: whenever a write job has ended with one, its pair is confirmed from then on, and
      the result is the stored one. */
  lemma ResultsAreRemembered(c: Contract, steps: seq<Step>, s: State, j: nat)
    requires Reached(c, steps, s) && j < |s.jobs| && IsWrite(s.jobs[j]) && s.jobs[j].side.verdict.Result?
    ensures var job := s.jobs[j];
            && KeyOf(job) in s.books.done
            && (job.side.verdict.payload == s.books.done[KeyOf(job)]
                || job.side.verdict.payload == s.books.done[KeyOf(job)].(repeated := true))
  {
    ReachedInv(c, steps, s);
    assert LiveInv(s, j) && Remembered(s.books, s.jobs[j]);
  }

  /** The caps refuse nothing too early: a permit is granted exactly while the day has had fewer than 45 attempts, an
      action exactly while it has had fewer than 5. */
  lemma CapsAreExact(c: Contract, steps: seq<Step>, s: State, j: nat)
    requires Reached(c, steps, s) && j < |s.jobs| && IsWrite(s.jobs[j])
    ensures ReplyTo(s.books, s.jobs[j].side, Permit, s.day).2 == Granted
       <==> GrantsOn(DaysOf(s.httpLog), s.day) < 45
    ensures ReplyTo(s.books, s.jobs[j].side, Ask.Count, s.day).2 == Granted
       <==> GrantsOn(s.actionLog, s.day) < 5
  {
    ReachedInv(c, steps, s);
  }
}
