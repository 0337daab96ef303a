/** A video post, over every exchange with the provider: what is uploaded, how often the state is asked,
    and what has to come before the post itself. */
module PostVideo {
  import opened Wrappers
  import opened Utf8
  import opened Redaktion
  import opened Wire
  import opened PostAdapter
  import opened PostSafety

  /** The reply a program point has just been entered with. */
  function LastOf(replies: seq<Reply>): Reply
    requires replies != []
  {
    replies[|replies| - 1]
  }

  function Front(replies: seq<Reply>): seq<Reply>
    requires replies != []
  {
    replies[..|replies| - 1]
  }

  // ----- polling ---------------------------------------------------------------------------

  const MAX_POLLS: nat := 31

  /** The answered status requests. */
  function Polls(c: Contract, t: Task, replies: seq<Reply>): nat
    requires TaskOk(t)
  {
    if replies == [] then 0
    else Polls(c, t, Front(replies)) + if Run(c, t, Front(replies)).Status? then 1 else 0
  }

  /** The last two replies both answer the status request. */
  predicate Repeated(c: Contract, t: Task, replies: seq<Reply>)
    requires TaskOk(t) && replies != [] && Front(replies) != []
  {
    Run(c, t, Front(replies)).Status? && Run(c, t, Front(Front(replies))).Status?
  }

  /** The job's clock never runs back, and between two status requests it sleeps its fixed spacing. */
  predicate Spaced(c: Contract, t: Task, replies: seq<Reply>)
    requires TaskOk(t)
  {
    replies != [] ==>
      && Spaced(c, t, Front(replies))
      && (Front(replies) != [] && LastOf(replies).Answer? && LastOf(Front(replies)).Answer? ==>
            LastOf(Front(replies)).at + (if Repeated(c, t, replies) then 30 else 0) <= LastOf(replies).at)
  }

  predicate BeforeStatus(pc: Pc) {
    pc.InitVideo? || pc.PutPart? || pc.Finalize? || pc.InitPicture? || pc.PutPicture? || pc.InitDocument? || pc.PutDocument?
  }

  /** Polling has used up its share of the fixed waiting time. */
  predicate PollState(pc: Pc, polls: nat, replies: seq<Reply>) {
    match pc
    case Status(_, deadline) =>
      && replies != [] && LastOf(replies).Answer?
      && deadline - MAX_WAIT_SECONDS + (if polls == 0 then 0 else (polls - 1) * POLL_SECONDS) <= LastOf(replies).at
      && (polls > 0 ==> LastOf(replies).at + POLL_SECONDS <= deadline)
    case _ => polls <= MAX_POLLS && (BeforeStatus(pc) ==> polls == 0)
  }

  lemma PollStep(c: Contract, t: Task, pc: Pc, polls: nat, before: seq<Reply>, reply: Reply)
    requires TaskOk(t) && PollState(pc, polls, before) && (polls == 0 || !BeforeStatus(pc))
    requires before != [] && reply.Answer? && LastOf(before).Answer? ==>
               LastOf(before).at + (if pc.Status? && polls > 0 then POLL_SECONDS else 0) <= reply.at
    ensures PollState(Advance(c, t, pc, reply), polls + (if pc.Status? then 1 else 0), before + [reply])
  {
    hide TaskOk, FormatOf, AssetOf, VideoOf;
    assert LastOf(before + [reply]) == reply;
  }

  lemma OnlyPollingRepeats(c: Contract, t: Task, replies: seq<Reply>)
    requires TaskOk(t) && replies != []
    requires PollState(Run(c, t, Front(replies)), Polls(c, t, Front(replies)), Front(replies))
    ensures Run(c, t, replies).Status? && Polls(c, t, replies) > 0 ==> Run(c, t, Front(replies)).Status?
  {
    hide TaskOk, FormatOf, AssetOf, VideoOf;
  }

  lemma {:induction false} PollStates(c: Contract, t: Task, replies: seq<Reply>)
    requires TaskOk(t) && Spaced(c, t, replies)
    decreases |replies|
    ensures PollState(Run(c, t, replies), Polls(c, t, replies), replies)
  {
    hide TaskOk, FormatOf, Advance;
    if replies != [] {
      PollStates(c, t, Front(replies));
      if Front(replies) != [] {
        PollStates(c, t, Front(Front(replies)));
        OnlyPollingRepeats(c, t, Front(replies));
      }
      PollStep(c, t, Run(c, t, Front(replies)), Polls(c, t, Front(replies)), Front(replies), LastOf(replies));
      assert Front(replies) + [LastOf(replies)] == replies;
    }
  }

  /** The state of a video is asked at most 31 times, the question that waits for its answer included, whatever the
      provider answers. */
  lemma PollsAreBounded(c: Contract, t: Task, replies: seq<Reply>)
    requires TaskOk(t) && Spaced(c, t, replies)
    ensures Polls(c, t, replies) + (if Run(c, t, replies).Status? then 1 else 0) <= 31
  {
    PollStates(c, t, replies);
    hide Run, Polls, TaskOk;
  }

  /** What the state of a video leads to: available, to the post; still in work, to the next question, as long as the next
      one falls within 15 minutes of the finalisation; anything else, to the failure of the job. */
  lemma StatesOfAVideo(c: Contract, t: Task, urn: string, token: string, etags: seq<string>, deadline: int, reply: Reply)
    requires TaskOk(t) && reply.Answer?
    ensures Advance(c, t, Finalize(urn, token, etags), reply)
         == if reply.status == 200 then Status(urn, reply.at + 15 * 60) else Failed("unexpected_source_shape")
    ensures var next := Advance(c, t, Status(urn, deadline), reply);
            && (reply.status != 200 ==> next == Failed("unexpected_source_shape"))
            && (reply.status == 200 && reply.state == Some("AVAILABLE") ==> next == Publish(Single(urn), Some(urn)))
            && (reply.status == 200 && reply.state in {Some("PROCESSING"), Some("WAITING_UPLOAD")} ==>
                  next == if reply.at + 30 <= deadline then Status(urn, deadline) else Failed("video_nicht_verfuegbar"))
            && (reply.status == 200 && reply.state !in {Some("AVAILABLE"), Some("PROCESSING"), Some("WAITING_UPLOAD")} ==>
                  next == Failed("video_verarbeitung_fehlgeschlagen"))
  {
    hide FormatOf;
  }

  /** What confirms a part: a short printable etag, and not an empty one. */
  lemma EtagForm(etag: string)
    ensures EtagOk(Some(etag)) <==> 1 <= |etag| <= 1024 && forall c | c in etag :: 32 <= c as int <= 126
    ensures !EtagOk(None)
  {
  }

  // ----- the post comes last ---------------------------------------------------------------

  /** A point of a video post: it publishes only the video it has just been told is available. */
  predicate VideoPoint(c: Contract, t: Task, pc: Pc, replies: seq<Reply>)
    requires TaskOk(t)
  {
    match pc
    case InitVideo => replies == []
    case PutPart(_, _, _, _) => true
    case Finalize(_, _, _) => true
    case Status(_, _) => replies != []
    case Publish(content, video) =>
      && video.Some? && content == Single(video.value)
      && replies != [] && LastOf(replies).Answer? && LastOf(replies).state == Some("AVAILABLE")
      && CallOf(c, t, Run(c, t, Front(replies))) == Some(Api(VideoStatus, video.value, NoBody))
    case Finished(done) => done.videoUrn.Some?
    case Failed(_) => true
    case _ => false
  }

  lemma {:induction false} VideoPoints(c: Contract, t: Task, replies: seq<Reply>)
    requires TaskOk(t) && FormatOf(t) == Ok(OneVideo)
    ensures VideoPoint(c, t, Run(c, t, replies), replies)
  {
    hide TaskOk, FormatOf, AssetOf, VideoOf, EtagOk, LittleText;
    if replies != [] {
      VideoPoints(c, t, Front(replies));
    }
  }

  /** Every post request of a video post follows directly on the answer that the video is available. */
  lemma PostOnlyAvailable(c: Contract, t: Task, replies: seq<Reply>, post: Call)
    requires TaskOk(t) && FormatOf(t) == Ok(OneVideo)
    requires CallOf(c, t, Run(c, t, replies)) == Some(post) && post.Api? && post.op == PostCreate
    ensures replies != [] && LastOf(replies).Answer? && LastOf(replies).state == Some("AVAILABLE")
    ensures post.body.CreateBody? && post.body.content.Single?
    ensures CallOf(c, t, Run(c, t, Front(replies))) == Some(Api(VideoStatus, post.body.content.id, NoBody))
  {
    VideoPoints(c, t, replies);
    hide TaskOk, FormatOf, LittleText, Run;
  }

  // ----- what is uploaded ------------------------------------------------------------------

  function BytesOf(call: Call): seq<Byte> {
    match call
    case Upload(_, data, _) => data
    case Api(_, _, _) => []
  }

  /** The bytes of these uploads, one after the other. */
  function Sent(calls: seq<Call>): seq<Byte> {
    if calls == [] then []
    else Sent(calls[..|calls| - 1]) + BytesOf(calls[|calls| - 1])
  }

  /** Part `i` went to an allowed address without the token, and its answer gave the etag in its place. */
  predicate Confirmed(c: Contract, etags: seq<string>, calls: seq<Call>, replies: seq<Reply>, i: nat)
    requires i < |etags| && |calls| == |replies| == 1 + |etags|
  {
    && calls[i + 1].Upload? && !calls[i + 1].withToken && c.urlOk(calls[i + 1].url)
    && replies[i + 1].Answer? && replies[i + 1].etag == Some(etags[i])
  }

  predicate Inside(parts: seq<Part>, size: nat) {
    forall p | p in parts :: p.first <= p.last < size
  }

  /** The first parts are on their way, exactly their bytes, and each is confirmed. */
  predicate UploadsOf(c: Contract, t: Task, parts: seq<Part>, etags: seq<string>, calls: seq<Call>, replies: seq<Reply>) {
    && t.data != [] && |calls| == |replies| == 1 + |etags| && |etags| <= |parts| <= MaxParts(|t.data[0]|)
    && parts != [] && Tiles(parts, 0, |t.data[0]|)
    && (forall i | 0 <= i < |parts| :: c.urlOk(parts[i].url))
    && calls[0] == Api(VideoInit, "", VideoInitBody(c.organization, |t.data[0]|))
    && (forall i | 0 <= i < |etags| :: Confirmed(c, etags, calls, replies, i))
    && Inside(parts, |t.data[0]|) && Sent(calls) == Slices(t.data[0], parts[..|etags|])
  }

  predicate UploadPoint(c: Contract, t: Task, pc: Pc, calls: seq<Call>, replies: seq<Reply>) {
    match pc
    case InitVideo => calls == [] && replies == []
    case PutPart(_, _, parts, etags) => UploadsOf(c, t, parts, etags, calls, replies) && |etags| < |parts|
    case Finalize(_, _, etags) => Uploaded(c, t, etags, calls, replies)
    case _ => true
  }

  /** Everything is uploaded: the bytes of the one copy, and one etag for each part, in its place. */
  predicate Uploaded(c: Contract, t: Task, etags: seq<string>, calls: seq<Call>, replies: seq<Reply>) {
    && t.data != [] && |calls| == |replies| == 1 + |etags| && 0 < |etags| <= MaxParts(|t.data[0]|)
    && Sent(calls) == t.data[0]
    && (forall i | 0 <= i < |etags| :: Confirmed(c, etags, calls, replies, i))
  }

  lemma UploadBegins(c: Contract, t: Task, reply: Reply)
    requires TaskOk(t) && t.data != [] && Advance(c, t, InitVideo, reply).PutPart?
    ensures UploadPoint(c, t, Advance(c, t, InitVideo, reply), [CallOf(c, t, InitVideo).value], [reply])
  {
    var parts := VideoOf(c, |t.data[0]|, reply).value.2;
    var items := reply.value.value.instructions.value;
    PartsAreTheTiling(items, 0, |t.data[0]|, c.urlOk);
    PartsUsable(items, |t.data[0]|, c.urlOk);
    forall i | 0 <= i < |parts| ensures c.urlOk(parts[i].url) {
      assert parts[i] in parts;
    }
    hide TaskOk, FormatOf, PartsFrom;
    PartsRebuild(t.data[0], parts, 0);
    assert Sent([]) == [];
  }

  lemma SentMore(calls: seq<Call>, call: Call)
    ensures Sent(calls + [call]) == Sent(calls) + BytesOf(call)
  {
    assert (calls + [call])[..|calls|] == calls;
  }

  /** One more part on its way. */
  lemma UploadAdds(
      c: Contract, t: Task, parts: seq<Part>, etags: seq<string>, calls: seq<Call>, replies: seq<Reply>, reply: Reply)
    requires UploadsOf(c, t, parts, etags, calls, replies) && |etags| < |parts|
    requires reply.Answer? && reply.etag.Some?
    ensures var p := parts[|etags|];
            UploadsOf(c, t, parts, etags + [reply.etag.value],
                      calls + [Call.Upload(p.url, t.data[0][p.first..p.last + 1], false)], replies + [reply])
  {
    hide Tiles, MaxParts;
    var data, n, part := t.data[0], |etags|, parts[|etags|];
    var call := Call.Upload(part.url, data[part.first..part.last + 1], false);
    SentMore(calls, call);
    assert parts[..n + 1] == parts[..n] + [part];
    assert part in parts && forall p | p in parts[..n] :: p in parts;
    SlicesAppend(data, parts[..n], part);
    var more, list := calls + [call], etags + [reply.etag.value];
    hide Sent;
    ConfirmedMore(c, etags, calls, replies, reply, call);
  }

  lemma ConfirmedMore(
      c: Contract, etags: seq<string>, calls: seq<Call>, replies: seq<Reply>, reply: Reply, call: Call)
    requires |calls| == |replies| == 1 + |etags|
    requires forall i | 0 <= i < |etags| :: Confirmed(c, etags, calls, replies, i)
    requires call.Upload? && !call.withToken && c.urlOk(call.url) && reply.Answer? && reply.etag.Some?
    ensures var list := etags + [reply.etag.value];
            forall i | 0 <= i < |list| :: Confirmed(c, list, calls + [call], replies + [reply], i)
  {
    var list, more := etags + [reply.etag.value], calls + [call];
    forall i | 0 <= i < |list| ensures Confirmed(c, list, more, replies + [reply], i) {
      if i < |etags| {
        assert Confirmed(c, etags, calls, replies, i);
        assert more[i + 1] == calls[i + 1] && (replies + [reply])[i + 1] == replies[i + 1];
      }
    }
  }

  lemma UploadWhole(c: Contract, t: Task, parts: seq<Part>, etags: seq<string>, calls: seq<Call>, replies: seq<Reply>)
    requires UploadsOf(c, t, parts, etags, calls, replies) && |etags| == |parts|
    ensures Uploaded(c, t, etags, calls, replies)
  {
    hide Tiles, MaxParts, Sent;
    PartsRebuild(t.data[0], parts, 0);
    assert parts[..|parts|] == parts && t.data[0][0..] == t.data[0];
    assert forall i | 0 <= i < |etags| :: Confirmed(c, etags, calls, replies, i);
  }

  lemma UploadStep(c: Contract, t: Task, pc: Pc, calls: seq<Call>, replies: seq<Reply>, reply: Reply)
    requires TaskOk(t) && pc.PutPart? && UploadPoint(c, t, pc, calls, replies)
    requires CallOf(c, t, pc).Some?
    ensures UploadPoint(c, t, Advance(c, t, pc, reply), calls + [CallOf(c, t, pc).value], replies + [reply])
  {
    if reply.Answer? && EtagOk(reply.etag) {
      UploadAdds(c, t, pc.parts, pc.etags, calls, replies, reply);
      hide UploadsOf, Uploaded, EtagOk, TaskOk;
      if |pc.etags| + 1 == |pc.parts| {
        UploadWhole(c, t, pc.parts, pc.etags + [reply.etag.value], calls + [CallOf(c, t, pc).value], replies + [reply]);
      }
    }
  }

  /** Only two points lead to an upload or to the end of it. */
  lemma WhoUploads(c: Contract, t: Task, pc: Pc, reply: Reply)
    requires TaskOk(t)
    ensures Advance(c, t, pc, reply).PutPart? ==> (pc.InitVideo? && t.data != []) || pc.PutPart?
    ensures Advance(c, t, pc, reply).Finalize? ==> pc.PutPart? || Terminal(pc)
    ensures Terminal(pc) ==> Advance(c, t, pc, reply) == pc
    ensures !Advance(c, t, pc, reply).InitVideo?
  {
    hide TaskOk, FormatOf, AssetOf, VideoOf, EtagOk;
  }

  lemma CallsUnfold(c: Contract, t: Task, replies: seq<Reply>)
    requires TaskOk(t) && replies != []
    ensures Run(c, t, replies) == Advance(c, t, Run(c, t, Front(replies)), LastOf(replies))
    ensures CallOf(c, t, Run(c, t, Front(replies))).Some? ==>
              Calls(c, t, replies) == Calls(c, t, Front(replies)) + [CallOf(c, t, Run(c, t, Front(replies))).value]
  {
    hide Advance, CallOf, TaskOk;
  }

  /** The next part of an upload can always be sent. */
  lemma PartCall(c: Contract, t: Task, pc: Pc, calls: seq<Call>, replies: seq<Reply>)
    requires TaskOk(t) && pc.PutPart? && UploadPoint(c, t, pc, calls, replies)
    ensures CallOf(c, t, pc).Some?
  {
    assert pc.parts[|pc.etags|] in pc.parts;
    hide TaskOk, Tiles, Sent;
  }

  lemma {:induction false} UploadPoints(c: Contract, t: Task, replies: seq<Reply>)
    requires TaskOk(t) && FormatOf(t) == Ok(OneVideo)
    ensures UploadPoint(c, t, Run(c, t, replies), Calls(c, t, replies), replies)
  {
    hide Start, FormatOf, Uploaded, UploadsOf, LittleText, Advance, CallOf, Calls, TaskOk;
    if replies == [] {
      VideoStarts(c, t);
    } else {
      var front, pc := Front(replies), Run(c, t, Front(replies));
      UploadPoints(c, t, front);
      WhoUploads(c, t, pc, LastOf(replies));
      CallsUnfold(c, t, replies);
      if pc.InitVideo? && Run(c, t, replies).PutPart? {
        InitFirst(c, t, replies);
        UploadBegins(c, t, LastOf(replies));
      }
      if pc.PutPart? {
        PartCall(c, t, pc, Calls(c, t, front), front);
        UploadStep(c, t, pc, Calls(c, t, front), front, LastOf(replies));
        assert front + [LastOf(replies)] == replies;
      }
    }
  }

  lemma VideoStarts(c: Contract, t: Task)
    requires TaskOk(t) && FormatOf(t) == Ok(OneVideo)
    ensures UploadPoint(c, t, Start(t), Calls(c, t, []), [])
  {
  }

  lemma InitFirst(c: Contract, t: Task, replies: seq<Reply>)
    requires TaskOk(t) && t.data != [] && replies != [] && Run(c, t, Front(replies)).InitVideo?
    requires UploadPoint(c, t, InitVideo, Calls(c, t, Front(replies)), Front(replies))
    ensures replies == [LastOf(replies)] && Calls(c, t, replies) == [CallOf(c, t, InitVideo).value]
  {
    CallsUnfold(c, t, replies);
    hide Calls, Run, TaskOk;
  }

  /** When the upload is finalised, the provider has been sent exactly the hashed bytes of the one copy, in at most
      `ceil(size / 4 MiB)` parts without the token, and the request lists one etag per part, in order. */
  lemma FinalizeListsEveryPart(c: Contract, t: Task, replies: seq<Reply>, finalize: Call)
    requires TaskOk(t) && FormatOf(t) == Ok(OneVideo)
    requires CallOf(c, t, Run(c, t, replies)) == Some(finalize) && finalize.Api? && finalize.op == VideoFinalize
    ensures finalize.body.FinalizeBody? && Uploaded(c, t, finalize.body.etags, Calls(c, t, replies), replies)
  {
    hide TaskOk, FormatOf, LittleText, Run, Calls, Uploaded, UploadsOf;
    UploadPoints(c, t, replies);
  }
}
