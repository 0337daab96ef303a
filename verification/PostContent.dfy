/** What the requests of a job contain, over every exchange with the provider: they say what the preview showed, the
    content they refer to is what has been uploaded, and a result is what the provider has confirmed. */
module PostContent {
  import opened Wrappers
  import opened Utf8
  import opened Redaktion
  import opened Wire
  import opened PostAdapter
  import opened PostSafety
  import opened PostVideo

  // ----- where a job can stand -------------------------------------------------------------

  predicate HasFormat(t: Task, format: Format) {
    t.action == Post && FormatOf(t) == Ok(format) && |t.data| == |t.effect.media|
  }

  predicate OfPictures(t: Task) {
    (HasFormat(t, OnePicture) && |t.data| == 1) || (HasFormat(t, Pictures) && |t.data| > 1)
  }

  /** The content of a post is of the format of its effect. */
  predicate ContentFits(c: Contract, t: Task, content: Content) {
    match content
    case NoContent => HasFormat(t, TextOnly)
    case Survey(question, options, duration) =>
      && HasFormat(t, PollOnly) && t.effect.poll.Some? && t.effect.poll.value.question == question
      && t.effect.poll.value.answers == options && NamedDuration(t.effect.poll.value.duration, duration)
    case Titled(id, title) =>
      && HasFormat(t, OneDocument) && |t.data| == 1 && title == t.effect.media[0].name && c.assetUrn(DocumentAsset, id)
    case Single(id) =>
      && |t.data| == 1
      && ((HasFormat(t, OnePicture) && c.assetUrn(ImageAsset, id)) || (HasFormat(t, OneVideo) && c.assetUrn(VideoAsset, id)))
    case Many(ids) => HasFormat(t, Pictures) && |ids| == |t.data| > 1 && Images(c, ids)
  }

  predicate Images(c: Contract, ids: seq<string>) {
    forall id | id in ids :: c.assetUrn(ImageAsset, id)
  }

  predicate NamedDuration(days: int, name: string) {
    (days, name) in {(1, "ONE_DAY"), (3, "THREE_DAYS"), (7, "SEVEN_DAYS"), (14, "FOURTEEN_DAYS")}
  }

  predicate Allowed(c: Contract, parts: seq<Part>, size: nat) {
    forall p | p in parts :: c.urlOk(p.url) && p.first <= p.last < size
  }

  /** The points a job of this task can stand at. */
  predicate PcFits(c: Contract, t: Task, pc: Pc) {
    match pc
    case InitPicture(ids) => OfPictures(t) && |ids| < |t.data| && Images(c, ids)
    case PutPicture(ids, urn, url) =>
      OfPictures(t) && |ids| < |t.data| && Images(c, ids) && c.assetUrn(ImageAsset, urn) && c.urlOk(url)
    case InitDocument => HasFormat(t, OneDocument) && |t.data| == 1
    case PutDocument(urn, url) =>
      HasFormat(t, OneDocument) && |t.data| == 1 && c.assetUrn(DocumentAsset, urn) && c.urlOk(url)
    case InitVideo => HasFormat(t, OneVideo) && |t.data| == 1
    case PutPart(urn, _, parts, etags) =>
      && HasFormat(t, OneVideo) && |t.data| == 1 && c.assetUrn(VideoAsset, urn)
      && Allowed(c, parts, |t.data[0]|) && |etags| < |parts|
    case Finalize(urn, _, _) => HasFormat(t, OneVideo) && |t.data| == 1 && c.assetUrn(VideoAsset, urn)
    case Status(urn, _) => HasFormat(t, OneVideo) && |t.data| == 1 && c.assetUrn(VideoAsset, urn)
    case Publish(content, _) => t.action == Post && ContentFits(c, t, content)
    case Change => t.action == Edit
    case Remove => t.action == Delete
    case Respond => t.action == Comment
    case _ => true
  }

  lemma FormatsFit(t: Task)
    requires TaskOk(t)
    ensures t.action == Post ==>
              match FormatOf(t).value
              case OnePicture => |t.data| == 1
              case Pictures => |t.data| > 1
              case OneDocument => |t.data| == 1
              case OneVideo => |t.data| == 1
              case PollOnly => t.effect.poll.Some?
              case TextOnly => true
              case Target(_) => false
    ensures t.action != Post ==> FormatOf(t) == Ok(Target(t.action))
  {
    hide KindOf;
    assert |Names(t.effect.media)| == |t.effect.media|;
  }

  lemma StartFits(c: Contract, t: Task)
    requires TaskOk(t)
    ensures PcFits(c, t, Start(t))
  {
    hide FormatOf;
    FormatsFit(t);
  }

  lemma AdvanceFits(c: Contract, t: Task, pc: Pc, reply: Reply)
    requires TaskOk(t) && PcFits(c, t, pc)
    ensures PcFits(c, t, Advance(c, t, pc, reply))
  {
    hide FormatOf, Parts;
    if pc.InitVideo? && reply.Answer? && VideoOf(c, |t.data[0]|, reply).Ok? {
      PartsUsable(reply.value.value.instructions.value, |t.data[0]|, c.urlOk);
    }
  }

  lemma {:induction false} RunFits(c: Contract, t: Task, replies: seq<Reply>)
    requires TaskOk(t)
    ensures PcFits(c, t, Run(c, t, replies))
  {
    hide PcFits, Advance, TaskOk, Start;
    if replies == [] {
      StartFits(c, t);
    } else {
      RunFits(c, t, Front(replies));
      AdvanceFits(c, t, Run(c, t, Front(replies)), LastOf(replies));
    }
  }

  // ----- what the requests say -------------------------------------------------------------

  /** A request for this effect: every address, author, text, title and poll in it is the effect's, and bytes go to
      allowed addresses only. */
  predicate SaysEffect(c: Contract, t: Task, organization: string, call: Call) {
    match call
    case Upload(url, data, _) => t.action == Post && c.urlOk(url) && Sliced(t, data)
    case Api(PostCreate, urn, body) =>
      && t.action == Post && urn == "" && body.CreateBody? && body.author == organization
      && body.commentary == LittleText(t.effect.text, c.alnum) && ContentFits(c, t, body.content)
    case Api(PostUpdate, urn, body) =>
      t.action == Edit && urn == t.effect.target && body == PatchBody(LittleText(t.effect.text, c.alnum))
    case Api(PostDelete, urn, body) => t.action == Delete && urn == t.effect.target && body == NoBody
    case Api(CommentCreate, urn, body) =>
      t.action == Comment && urn == t.effect.target && body == CommentBody(organization, t.effect.target, t.effect.text)
    case Api(ImageInit, _, body) => OfPictures(t) && body == InitBody(organization)
    case Api(DocumentInit, _, body) => HasFormat(t, OneDocument) && body == InitBody(organization)
    case Api(VideoInit, _, body) => HasFormat(t, OneVideo) && |t.data| == 1 && body == VideoInitBody(organization, |t.data[0]|)
    case Api(VideoFinalize, _, body) => HasFormat(t, OneVideo) && body.FinalizeBody? && c.assetUrn(VideoAsset, body.video)
    case Api(VideoStatus, urn, body) => HasFormat(t, OneVideo) && c.assetUrn(VideoAsset, urn) && body == NoBody
  }

  /** The bytes are a stretch of one of the copies. */
  predicate Sliced(t: Task, data: seq<Byte>) {
    exists i, first, last | 0 <= i < |t.data| && 0 <= first <= last <= |t.data[i]| :: data == t.data[i][first..last]
  }

  lemma WholeIsSliced(t: Task, i: nat)
    requires i < |t.data|
    ensures Sliced(t, t.data[i])
  {
    assert t.data[i] == t.data[i][0..|t.data[i]|];
  }

  /** A job that stands anywhere but at its end has a request to make, and it says the effect. */
  lemma CallSays(c: Contract, t: Task, pc: Pc)
    requires TaskOk(t) && PcFits(c, t, pc)
    ensures CallOf(c, t, pc) == None <==> Terminal(pc)
    ensures !Terminal(pc) ==> SaysEffect(c, t, c.organization, CallOf(c, t, pc).value)
  {
    hide FormatOf, LittleText, ContentFits, Sliced;
    match pc {
      case PutPicture(ids, _, _) => WholeIsSliced(t, |ids|);
      case PutDocument(_, _) => WholeIsSliced(t, 0);
      case PutPart(_, _, parts, etags) =>
        var p := parts[|etags|];
        assert p in parts;
        assert Sliced(t, t.data[0][p.first..p.last + 1]) by { PartIsSliced(t, p.first, p.last + 1); }
      case _ =>
    }
  }

  lemma PartIsSliced(t: Task, first: nat, last: nat)
    requires t.data != [] && first <= last <= |t.data[0]|
    ensures Sliced(t, t.data[0][first..last])
  {
  }

  /** The preview says what the job sends: for every exchange with the provider, the author of a post is the target on
      display, the address of a change to a post is, and the text, the title and the poll are those on display. */
  lemma PreviewIsSent(c: Contract, request: WriteRequest, gateway: Gateway, replies: seq<Reply>)
    requires Reading(request.action, gateway).Some?
    ensures TaskOk(TaskFor(c, request, gateway))
    ensures var (entry, media) := Reading(request.action, gateway).value;
            var preview, t := PreviewOf(c, request, entry, media), TaskFor(c, request, gateway);
            && preview.text == t.effect.text && preview.target == t.effect.target && preview.poll == t.effect.poll
            && (request.action == Post ==> preview.target == c.organization)
            && var call := CallOf(c, t, Run(c, t, replies));
               call.Some? ==>
                 SaysEffect(c, t, if request.action == Post then preview.target else c.organization, call.value)
  {
    ReadingIsOk(c, request, gateway);
    var t := TaskFor(c, request, gateway);
    RunFits(c, t, replies);
    CallSays(c, t, Run(c, t, replies));
    hide Run, CallOf, TaskOk, SaysEffect, ApprovalHash, CheckFormat;
  }

  lemma ReadingIsOk(c: Contract, request: WriteRequest, gateway: Gateway)
    requires Reading(request.action, gateway).Some?
    ensures TaskOk(TaskFor(c, request, gateway))
  {
    LoadedFits(request.action, gateway);
    var (entry, media, format) := Loading(request.action, gateway).value;
    TaskOfOk(c, request.action, entry, media, format);
    hide TaskOk, Loading, CheckFormat, EffectOf;
  }

  // ----- what has been uploaded ------------------------------------------------------------

  /** Asset `k` of pictures or a document: its initialisation named it and gave the allowed address that its bytes were
      sent to, whole and with the token. */
  predicate Placed(c: Contract, t: Task, ids: seq<string>, calls: seq<Call>, replies: seq<Reply>, k: nat)
    requires k < |ids| <= |t.data| && |calls| == |replies| == 2 * |ids|
  {
    var answer := replies[2 * k];
    && answer.Answer? && answer.status == 200 && answer.value.Some?
    && answer.value.value.asset == Some(ids[k]) && answer.value.value.url.Some? && c.urlOk(answer.value.value.url.value)
    && calls[2 * k + 1] == Upload(answer.value.value.url.value, t.data[k], true)
  }

  /** The first assets are at the provider. */
  predicate PlacedFirst(c: Contract, t: Task, ids: seq<string>, calls: seq<Call>, replies: seq<Reply>) {
    && |ids| <= |t.data| && |calls| == |replies| == 2 * |ids|
    && forall k | 0 <= k < |ids| :: Placed(c, t, ids, calls, replies, k)
  }

  /** The next asset has been initialised. */
  predicate Initialised(
      c: Contract, t: Task, ids: seq<string>, urn: string, url: string, calls: seq<Call>, replies: seq<Reply>)
  {
    && |calls| == |replies| == 2 * |ids| + 1
    && PlacedFirst(c, t, ids, calls[..2 * |ids|], replies[..2 * |ids|])
    && var answer := replies[2 * |ids|];
       && answer.Answer? && answer.status == 200 && answer.value.Some?
       && answer.value.value.asset == Some(urn) && answer.value.value.url == Some(url)
  }

  function IdsOf(content: Content): seq<string> {
    match content
    case Single(id) => [id]
    case Titled(id, _) => [id]
    case Many(ids) => ids
    case _ => []
  }

  predicate AssetPoint(c: Contract, t: Task, pc: Pc, calls: seq<Call>, replies: seq<Reply>) {
    match pc
    case InitPicture(ids) => PlacedFirst(c, t, ids, calls, replies)
    case PutPicture(ids, urn, url) => Initialised(c, t, ids, urn, url, calls, replies)
    case InitDocument => PlacedFirst(c, t, [], calls, replies)
    case PutDocument(urn, url) => Initialised(c, t, [], urn, url, calls, replies)
    case Publish(content, _) => !content.NoContent? && !content.Survey? && PlacedFirst(c, t, IdsOf(content), calls, replies)
    case _ => true
  }

  lemma OneMorePlaced(
      c: Contract, t: Task, ids: seq<string>, urn: string, url: string, calls: seq<Call>, replies: seq<Reply>, reply: Reply)
    requires Initialised(c, t, ids, urn, url, calls, replies) && |ids| < |t.data| && c.urlOk(url)
    ensures PlacedFirst(c, t, ids + [urn], calls + [Upload(url, t.data[|ids|], true)], replies + [reply])
  {
    var n, all := |ids|, ids + [urn];
    var more, heard := calls + [Upload(url, t.data[n], true)], replies + [reply];
    forall k | 0 <= k < |all| ensures Placed(c, t, all, more, heard, k) {
      if k < n {
        assert Placed(c, t, ids, calls[..2 * n], replies[..2 * n], k);
        assert heard[2 * k] == replies[..2 * n][2 * k] && more[2 * k + 1] == calls[..2 * n][2 * k + 1];
      } else {
        assert heard[2 * n] == replies[2 * n];
      }
    }
  }

  /** A job with pictures or a document, one step further. */
  lemma AssetStep(c: Contract, t: Task, pc: Pc, calls: seq<Call>, replies: seq<Reply>, reply: Reply)
    requires TaskOk(t) && (OfPictures(t) || HasFormat(t, OneDocument))
    requires PcFits(c, t, pc) && AssetPoint(c, t, pc, calls, replies) && CallOf(c, t, pc).Some?
    requires !pc.InitVideo? && !pc.PutPart? && !pc.Finalize? && !pc.Status?
    ensures AssetPoint(c, t, Advance(c, t, pc, reply), calls + [CallOf(c, t, pc).value], replies + [reply])
  {
    hide FormatOf, Placed, LittleText;
    var more, heard := calls + [CallOf(c, t, pc).value], replies + [reply];
    assert more[..|calls|] == calls && heard[..|replies|] == replies;
    match pc {
      case PutPicture(ids, urn, url) =>
        OneMorePlaced(c, t, ids, urn, url, calls, replies, reply);
        assert |t.data| == 1 ==> ids + [urn] == [urn];
      case PutDocument(urn, url) =>
        OneMorePlaced(c, t, [], urn, url, calls, replies, reply);
        assert [] + [urn] == [urn];
      case _ =>
    }
  }

  lemma NoVideo(c: Contract, t: Task, pc: Pc)
    requires PcFits(c, t, pc) && (OfPictures(t) || HasFormat(t, OneDocument))
    ensures !pc.InitVideo? && !pc.PutPart? && !pc.Finalize? && !pc.Status?
  {
  }

  lemma AssetStart(c: Contract, t: Task)
    requires TaskOk(t) && (OfPictures(t) || HasFormat(t, OneDocument))
    ensures AssetPoint(c, t, Start(t), [], [])
  {
    hide FormatOf;
  }

  lemma {:induction false} AssetPoints(c: Contract, t: Task, replies: seq<Reply>)
    requires TaskOk(t) && (OfPictures(t) || HasFormat(t, OneDocument))
    ensures AssetPoint(c, t, Run(c, t, replies), Calls(c, t, replies), replies)
  {
    hide TaskOk, OfPictures, HasFormat, AssetPoint, Advance, CallOf, PcFits, Start;
    if replies == [] {
      AssetStart(c, t);
    } else {
      var front, pc := Front(replies), Run(c, t, Front(replies));
      AssetPoints(c, t, front);
      RunFits(c, t, front);
      NoVideo(c, t, pc);
      CallSays(c, t, pc);
      if Terminal(pc) {
        TerminalStays(c, t, pc, LastOf(replies));
        assert AssetPoint(c, t, pc, Calls(c, t, replies), replies) by { EndHasNoPoint(c, t, pc, Calls(c, t, replies), replies); }
      } else {
        CallsUnfold(c, t, replies);
        AssetStep(c, t, pc, Calls(c, t, front), front, LastOf(replies));
        assert front + [LastOf(replies)] == replies;
      }
    }
  }

  lemma TerminalStays(c: Contract, t: Task, pc: Pc, reply: Reply)
    requires TaskOk(t) && Terminal(pc)
    ensures Advance(c, t, pc, reply) == pc
  {
  }

  lemma EndHasNoPoint(c: Contract, t: Task, pc: Pc, calls: seq<Call>, replies: seq<Reply>)
    requires Terminal(pc)
    ensures AssetPoint(c, t, pc, calls, replies)
  {
  }

  /** A post with pictures or a document refers to all of them, in order: each id is the one the provider gave when it
      was asked for an address, and the bytes of that copy, whole, have gone to that address. */
  lemma AssetsInOrder(c: Contract, t: Task, replies: seq<Reply>, post: Call)
    requires TaskOk(t) && (OfPictures(t) || HasFormat(t, OneDocument))
    requires CallOf(c, t, Run(c, t, replies)) == Some(post) && post.Api? && post.op == PostCreate
    ensures post.body.CreateBody?
    ensures var ids := IdsOf(post.body.content);
            |ids| == |t.data| && PlacedFirst(c, t, ids, Calls(c, t, replies), replies)
  {
    AssetPoints(c, t, replies);
    RunFits(c, t, replies);
    hide Run, Calls, TaskOk, PlacedFirst, LittleText, FormatOf;
  }

  // ----- which answers end a job -----------------------------------------------------------

  /** An address for an asset of this kind. */
  predicate Addressed(c: Contract, kind: AssetKind, reply: Reply)
    requires reply.Answer?
  {
    && reply.status == 200 && reply.value.Some?
    && reply.value.value.asset.Some? && c.assetUrn(kind, reply.value.value.asset.value)
    && reply.value.value.url.Some? && c.urlOk(reply.value.value.url.value)
  }

  /** A video with its token, and parts that tile the file. */
  predicate Parted(c: Contract, size: nat, reply: Reply)
    requires reply.Answer?
  {
    && reply.status == 200 && reply.value.Some?
    && reply.value.value.asset.Some? && c.assetUrn(VideoAsset, reply.value.value.asset.value)
    && reply.value.value.token.Some? && reply.value.value.instructions.Some?
    && Parts(reply.value.value.instructions.value, size, c.urlOk).Ok?
  }

  /** The answer lets the job go on, or gives its result. */
  predicate Good(c: Contract, t: Task, pc: Pc, reply: Reply)
    requires reply.Answer?
  {
    match pc
    case InitPicture(_) => Addressed(c, ImageAsset, reply)
    case InitDocument => Addressed(c, DocumentAsset, reply)
    case InitVideo => t.data != [] && Parted(c, |t.data[0]|, reply)
    case PutPart(_, _, _, _) => EtagOk(reply.etag)
    case Finalize(_, _, _) => reply.status == 200
    case Status(_, deadline) =>
      && reply.status == 200
      && (reply.state == Some("AVAILABLE")
          || (reply.state in {Some("PROCESSING"), Some("WAITING_UPLOAD")} && reply.at + 30 <= deadline))
    case Publish(_, _) => reply.status == 201 && reply.restliId.Some? && c.postUrn(reply.restliId.value)
    case Change => reply.status == 204
    case Remove => reply.status == 204
    case Respond => reply.status == 201 && reply.restliId.Some? && c.commentId(reply.restliId.value)
    case _ => true
  }

  /** A job fails on an answer exactly if the answer is not good; on a good one it makes its next request or is done. */
  lemma OnlyBadAnswersFail(c: Contract, t: Task, pc: Pc, reply: Reply)
    requires TaskOk(t) && PcFits(c, t, pc) && !Terminal(pc) && reply.Answer?
    ensures Advance(c, t, pc, reply).Failed? <==> !Good(c, t, pc, reply)
  {
    hide FormatOf, LittleText, ContentFits, Parts, EtagOk;
  }

  // ----- the result ------------------------------------------------------------------------

  /** The answer that confirms an action, and the result it gives. */
  predicate Confirms(c: Contract, t: Task, request: Call, reply: Reply, done: Done) {
    && reply.Answer? && request.Api?
    && match request.op
       case PostCreate =>
         && t.action == Post && reply.status == 201 && done.state == "veroeffentlicht" && done.commentId == None
         && reply.restliId == Some(done.postUrn) && c.postUrn(done.postUrn)
         && (if HasFormat(t, OneVideo) then
               request.body.CreateBody? && request.body.content.Single? && done.videoUrn == Some(request.body.content.id)
             else done.videoUrn == None)
       case PostUpdate =>
         t.action == Edit && reply.status == 204 && done == Done("bearbeitet", t.effect.target, None, None)
       case PostDelete =>
         t.action == Delete && reply.status == 204 && done == Done("geloescht", t.effect.target, None, None)
       case CommentCreate =>
         && t.action == Comment && reply.status == 201 && done.state == "kommentiert" && done.postUrn == t.effect.target
         && done.videoUrn == None && done.commentId.Some? && reply.restliId == done.commentId
         && c.commentId(done.commentId.value)
       case _ => false
  }

  /** The video of a post is the one it shows. */
  predicate VideoShown(t: Task, pc: Pc) {
    match pc
    case Publish(content, video) =>
      if HasFormat(t, OneVideo) then content.Single? && video == Some(content.id) else video == None
    case _ => true
  }

  lemma {:induction false} VideosShown(c: Contract, t: Task, replies: seq<Reply>)
    requires TaskOk(t)
    ensures VideoShown(t, Run(c, t, replies))
  {
    hide TaskOk, PcFits, VideoShown, Advance, Start;
    if replies == [] {
      StartShows(t);
    } else {
      VideosShown(c, t, Front(replies));
      RunFits(c, t, Front(replies));
      StepShows(c, t, Run(c, t, Front(replies)), LastOf(replies));
    }
  }

  lemma StartShows(t: Task)
    requires TaskOk(t)
    ensures VideoShown(t, Start(t))
  {
    hide FormatOf;
    FormatsFit(t);
  }

  lemma StepShows(c: Contract, t: Task, pc: Pc, reply: Reply)
    requires TaskOk(t) && PcFits(c, t, pc) && VideoShown(t, pc)
    ensures VideoShown(t, Advance(c, t, pc, reply))
  {
    hide FormatOf, LittleText, AssetOf, VideoOf, EtagOk, ContentFits, Images, Allowed;
  }

  /** A job that ends with a result has the provider's word for it: some answer has confirmed the request that completes
      the action, with its status, and the result names what that answer names. */
  lemma {:induction false} ResultIsConfirmed(c: Contract, t: Task, replies: seq<Reply>) returns (n: nat)
    requires TaskOk(t) && Run(c, t, replies).Finished?
    ensures n < |replies| && CallOf(c, t, Run(c, t, replies[..n])).Some?
    ensures Confirms(c, t, CallOf(c, t, Run(c, t, replies[..n])).value, replies[n], Run(c, t, replies).done)
    decreases |replies|
  {
    hide TaskOk, Confirms, CallOf, PcFits, VideoShown, Start, Advance;
    if replies == [] {
      StartIsNoEnd(t);
    } else {
      var front, pc := Front(replies), Run(c, t, Front(replies));
      if pc.Finished? {
        TerminalStays(c, t, pc, LastOf(replies));
        n := ResultIsConfirmed(c, t, front);
        assert front[..n] == replies[..n];
      } else {
        n := |front|;
        assert replies[..n] == front;
        RunFits(c, t, front);
        VideosShown(c, t, front);
        LastStep(c, t, pc, LastOf(replies));
      }
    }
  }

  lemma StartIsNoEnd(t: Task)
    requires TaskOk(t)
    ensures !Start(t).Finished?
  {
    hide FormatOf;
  }

  lemma LastStep(c: Contract, t: Task, pc: Pc, reply: Reply)
    requires TaskOk(t) && PcFits(c, t, pc) && VideoShown(t, pc) && !pc.Finished? && Advance(c, t, pc, reply).Finished?
    ensures CallOf(c, t, pc).Some? && Confirms(c, t, CallOf(c, t, pc).value, reply, Advance(c, t, pc, reply).done)
  {
    hide FormatOf, AssetOf, VideoOf, EtagOk, LittleText, ContentFits;
  }
}
