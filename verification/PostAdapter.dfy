/** The write adapter: one job process performs one action.  `Run` and `CallOf` describe the exchange
    with the provider as an automaton over the approved effect, the media bytes and the provider's
    replies; the class is the source's own program, with its loops and its early exits, proved to make
    exactly the automaton's calls although it works from the entry it read. */
module PostAdapter {
  import opened Wrappers
  import opened Utf8
  import opened Redaktion
  import opened Wire

  // ----- requests to the provider ----------------------------------------------------------

  datatype Op =
    | PostCreate | PostUpdate | PostDelete | CommentCreate
    | ImageInit | DocumentInit | VideoInit | VideoFinalize | VideoStatus

  datatype Http = GET | POST | DELETE | PUT

  datatype Content =
    | NoContent
    | Single(id: string)
    | Titled(id: string, title: string)
    | Many(ids: seq<string>)
    | Survey(question: string, options: seq<string>, duration: string)

  datatype Body =
    | NoBody
    | InitBody(owner: string)
    | VideoInitBody(owner: string, size: nat)
    | FinalizeBody(video: string, token: string, etags: seq<string>)
    | CreateBody(author: string, commentary: string, content: Content)
    | PatchBody(commentary: string)
    | CommentBody(actor: string, object_: string, text: string)

  datatype Call =
    | Api(op: Op, urn: string, body: Body)
    | Upload(url: string, data: seq<Byte>, withToken: bool)

  function MethodOf(call: Call): Http {
    match call
    case Upload(_, _, _) => PUT
    case Api(VideoStatus, _, _) => GET
    case Api(PostDelete, _, _) => DELETE
    case Api(_, _, _) => POST
  }

  /** A request that may have an effect at the provider. */
  predicate Writes(call: Call) {
    MethodOf(call) != GET
  }

  /** The one request that can have no effect: the question for the state of a video. */
  predicate AsksState(call: Call) {
    call.Api? && call.op == VideoStatus
  }

  /** The methods tell the requests apart: every other request counts as a write, uploads and deletions too. */
  lemma MethodsTellApart(call: Call)
    ensures Writes(call) <==> !AsksState(call)
    ensures MethodOf(call) == PUT <==> call.Upload?
    ensures MethodOf(call) == DELETE <==> call.Api? && call.op == PostDelete
  {
  }

  function Expected(op: Op): nat {
    if op == PostCreate || op == CommentCreate then 201
    else if op == PostUpdate || op == PostDelete then 204
    else 200
  }

  // ----- answers of the provider -----------------------------------------------------------

  /** The `value` object of an initialisation answer; a member that is not a string is absent. */
  datatype InitValue = InitValue(
    asset: Option<string>, url: Option<string>, token: Option<string>, instructions: Option<seq<Instruction>>)

  /** `at` is the job's monotonic clock, in seconds, after the answer. */
  datatype Reply =
    | Refused(code: Code)
    | Answer(status: nat, restliId: Option<string>, etag: Option<string>, value: Option<InitValue>,
             state: Option<string>, at: int)

  datatype AssetKind = ImageAsset | DocumentAsset | VideoAsset

  /** The fixed facts of one service: its configuration and the field patterns of the wire contract. */
  datatype Contract = Contract(
    organization: string, hash: Hash,
    alnum: char -> bool,
    urlOk: string -> bool, assetUrn: (AssetKind, string) -> bool, postUrn: string -> bool, commentId: string -> bool)

  const SHAPE: Code := "unexpected_source_shape"
  const POLL_SECONDS: int := 30
  const MAX_WAIT_SECONDS: int := 900

  predicate EtagOk(etag: Option<string>) {
    etag.Some? && 0 < |etag.value| <= 1024 && forall c | c in etag.value :: ' ' <= c <= '~'
  }

  function DurationName(days: int): Option<string> {
    if days == 1 then Some("ONE_DAY")
    else if days == 3 then Some("THREE_DAYS")
    else if days == 7 then Some("SEVEN_DAYS")
    else if days == 14 then Some("FOURTEEN_DAYS")
    else None
  }

  // ----- the automaton ---------------------------------------------------------------------

  /** What an approval covers plus the bytes behind its media digests. */
  datatype Task = Task(action: Redaktion.Action, effect: Effect, data: seq<seq<Byte>>)

  predicate TaskOk(t: Task) {
    && t.effect.action == ActionName(t.action)
    && (t.action == Post ==> |t.data| == |t.effect.media|)
    && FormatOf(t).Ok?
  }

  /** The digests of the effect are those of the bytes. */
  predicate Faithful(c: Contract, t: Task) {
    |t.data| == |t.effect.media| && forall i | 0 <= i < |t.data| :: t.effect.media[i].sha256 == c.hash(t.data[i])
  }

  function Names(media: seq<Medium>): seq<string> {
    seq(|media|, i requires 0 <= i < |media| => media[i].name)
  }

  function FormatOf(t: Task): Result<Format, Code> {
    CheckFormat(t.action, Names(t.effect.media), t.effect.poll)
  }

  datatype Done = Done(state: string, postUrn: string, videoUrn: Option<string>, commentId: Option<string>)

  datatype Pc =
    | InitPicture(ids: seq<string>)
    | PutPicture(ids: seq<string>, urn: string, url: string)
    | InitDocument
    | PutDocument(urn: string, url: string)
    | InitVideo
    | PutPart(urn: string, token: string, parts: seq<Part>, etags: seq<string>)
    | Finalize(urn: string, token: string, etags: seq<string>)
    | Status(urn: string, deadline: int)
    | Publish(content: Content, video: Option<string>)
    | Change
    | Remove
    | Respond
    | Finished(done: Done)
    | Failed(code: Code)

  predicate Terminal(pc: Pc) {
    pc.Finished? || pc.Failed?
  }

  function Start(t: Task): Pc
    requires TaskOk(t)
  {
    match FormatOf(t).value
    case OnePicture => InitPicture([])
    case Pictures => InitPicture([])
    case OneDocument => InitDocument
    case OneVideo => InitVideo
    case TextOnly => Publish(NoContent, None)
    case PollOnly =>
      var poll := t.effect.poll.value;
      (match DurationName(poll.duration)
       case None => Failed("source_unavailable")
       case Some(duration) => Publish(Survey(poll.question, poll.answers, duration), None))
    case Target(Edit) => Change
    case Target(Delete) => Remove
    case Target(_) => Respond
  }

  /** The request made at a program point; it mentions nothing but the effect and the bytes. */
  function CallOf(c: Contract, t: Task, pc: Pc): Option<Call>
    requires TaskOk(t)
  {
    match pc
    case InitPicture(_) => Some(Api(ImageInit, "", InitBody(c.organization)))
    case PutPicture(ids, _, url) => if |ids| < |t.data| then Some(Upload(url, t.data[|ids|], true)) else None
    case InitDocument => Some(Api(DocumentInit, "", InitBody(c.organization)))
    case PutDocument(_, url) => if t.data != [] then Some(Upload(url, t.data[0], true)) else None
    case InitVideo =>
      if t.data != [] then Some(Api(VideoInit, "", VideoInitBody(c.organization, |t.data[0]|))) else None
    case PutPart(_, _, parts, etags) =>
      if |etags| < |parts| && t.data != [] && parts[|etags|].first <= parts[|etags|].last < |t.data[0]| then
        var p := parts[|etags|];
        Some(Upload(p.url, t.data[0][p.first..p.last + 1], false))
      else None
    case Finalize(urn, token, etags) => Some(Api(VideoFinalize, "", FinalizeBody(urn, token, etags)))
    case Status(urn, _) => Some(Api(VideoStatus, urn, NoBody))
    case Publish(content, _) =>
      Some(Api(PostCreate, "", CreateBody(c.organization, LittleText(t.effect.text, c.alnum), content)))
    case Change => Some(Api(PostUpdate, t.effect.target, PatchBody(LittleText(t.effect.text, c.alnum))))
    case Remove => Some(Api(PostDelete, t.effect.target, NoBody))
    case Respond =>
      Some(Api(CommentCreate, t.effect.target, CommentBody(c.organization, t.effect.target, t.effect.text)))
    case Finished(_) => None
    case Failed(_) => None
  }

  /** The asset and upload address of an initialisation answer, or the complaint about it. */
  function AssetOf(c: Contract, kind: AssetKind, reply: Reply): Result<(string, string), Code>
    requires reply.Answer?
  {
    if reply.status != 200 || reply.value == None then Err(SHAPE)
    else
      var v := reply.value.value;
      if v.asset == None || !c.assetUrn(kind, v.asset.value) || v.url == None then Err(SHAPE)
      else if !c.urlOk(v.url.value) then Err("upload_ziel_abgewiesen")
      else Ok((v.asset.value, v.url.value))
  }

  function VideoOf(c: Contract, size: nat, reply: Reply): Result<(string, string, seq<Part>), Code>
    requires reply.Answer?
  {
    if reply.status != 200 || reply.value == None then Err(SHAPE)
    else
      var v := reply.value.value;
      if v.asset == None || !c.assetUrn(VideoAsset, v.asset.value) || v.token == None then Err(SHAPE)
      else if v.instructions == None then Err("upload_teile_ungueltig")
      else
        match Parts(v.instructions.value, size, c.urlOk)
        case Err(e) => Err(e)
        case Ok(parts) => Ok((v.asset.value, v.token.value, parts))
  }

  /** The `state` word of the result, by the request that completes the action. */
  function StateOf(last: Pc): string {
    match last
    case Publish(_, _) => "veroeffentlicht"
    case Change => "bearbeitet"
    case Remove => "geloescht"
    case _ => "kommentiert"
  }

  function Advance(c: Contract, t: Task, pc: Pc, reply: Reply): Pc
    requires TaskOk(t)
  {
    if Terminal(pc) then pc
    else if reply.Refused? then Failed(reply.code)
    else
      match pc
      case InitPicture(ids) =>
        (match AssetOf(c, ImageAsset, reply)
         case Err(e) => Failed(e)
         case Ok((urn, url)) => PutPicture(ids, urn, url))
      case PutPicture(ids, urn, _) =>
        var all := ids + [urn];
        if |all| < |t.data| then InitPicture(all)
        else Publish(if FormatOf(t).value == OnePicture then Single(urn) else Many(all), None)
      case InitDocument =>
        (match AssetOf(c, DocumentAsset, reply)
         case Err(e) => Failed(e)
         case Ok((urn, url)) => PutDocument(urn, url))
      case PutDocument(urn, _) =>
        if t.effect.media == [] then Failed(SHAPE) else Publish(Titled(urn, t.effect.media[0].name), None)
      case InitVideo =>
        if t.data == [] then Failed(SHAPE)
        else
          (match VideoOf(c, |t.data[0]|, reply)
           case Err(e) => Failed(e)
           case Ok((urn, token, parts)) => PutPart(urn, token, parts, []))
      case PutPart(urn, token, parts, etags) =>
        if !EtagOk(reply.etag) then Failed(SHAPE)
        else
          var all := etags + [reply.etag.value];
          if |all| < |parts| then PutPart(urn, token, parts, all) else Finalize(urn, token, all)
      case Finalize(urn, _, _) =>
        if reply.status != 200 then Failed(SHAPE) else Status(urn, reply.at + MAX_WAIT_SECONDS)
      case Status(urn, deadline) =>
        if reply.status != 200 then Failed(SHAPE)
        else if reply.state == Some("AVAILABLE") then Publish(Single(urn), Some(urn))
        else if reply.state != Some("PROCESSING") && reply.state != Some("WAITING_UPLOAD") then
          Failed("video_verarbeitung_fehlgeschlagen")
        else if reply.at + POLL_SECONDS > deadline then Failed("video_nicht_verfuegbar")
        else pc
      case Publish(_, video) =>
        if reply.status != 201 || reply.restliId == None || !c.postUrn(reply.restliId.value) then Failed(SHAPE)
        else Finished(Done(StateOf(pc), reply.restliId.value, video, None))
      case Change =>
        if reply.status != 204 then Failed(SHAPE) else Finished(Done(StateOf(Change), t.effect.target, None, None))
      case Remove =>
        if reply.status != 204 then Failed(SHAPE) else Finished(Done(StateOf(Remove), t.effect.target, None, None))
      case Respond =>
        if reply.status != 201 || reply.restliId == None || !c.commentId(reply.restliId.value) then Failed(SHAPE)
        else Finished(Done(StateOf(Respond), t.effect.target, None, reply.restliId))
  }

  /** The program point after these replies. */
  function Run(c: Contract, t: Task, replies: seq<Reply>): Pc
    requires TaskOk(t)
  {
    if replies == [] then Start(t)
    else Advance(c, t, Run(c, t, replies[..|replies| - 1]), replies[|replies| - 1])
  }

  // ----- what the job asks of its server ---------------------------------------------------

  /** The questions of a job; `Report` carries the digest of the effect it is about to perform. */
  datatype Ask = Report(digest: string) | Count | Token | Permit | Write

  function NeedsToken(call: Call): bool {
    call.Api? || call.withToken
  }

  /** The questions before a call, in order: the action once, the token, the HTTP permit, the write. */
  function Asks(call: Call, begun: bool): (asks: seq<Ask>)
  {
    (if begun then [] else [Count]) + (if NeedsToken(call) then [Token] else []) + [Permit]
    + (if Writes(call) then [Write] else [])
  }

  datatype Event = Asked(ask: Ask) | Sent(call: Call)

  function AskEvents(asks: seq<Ask>): seq<Event> {
    seq(|asks|, i requires 0 <= i < |asks| => Asked(asks[i]))
  }

  /** Everything a call puts into the log: its questions and then the request itself. */
  function CallLog(call: Call, begun: bool): seq<Event> {
    AskEvents(Asks(call, begun)) + [Sent(call)]
  }

  /** The log of a job that has received these replies and goes on. */
  function LogAfter(c: Contract, t: Task, replies: seq<Reply>): seq<Event>
    requires TaskOk(t)
  {
    if replies == [] then []
    else
      var before := replies[..|replies| - 1];
      LogAfter(c, t, before) + CallLogAt(c, t, before)
  }

  /** What the call after these replies puts into the log, if there is one. */
  function CallLogAt(c: Contract, t: Task, replies: seq<Reply>): seq<Event>
    requires TaskOk(t)
  {
    match CallOf(c, t, Run(c, t, replies)) case None => [] case Some(call) => CallLog(call, replies != [])
  }

  // ----- the program -----------------------------------------------------------------------

  /** How a step of the job ends: with a value, with the source's exception, or because the process
      was killed while it waited. */
  datatype End<+T> = Value(value: T) | Raised(code: Code) | Killed {
    predicate IsFailure() {
      !Value?
    }

    function PropagateFailure<U>(): End<U>
      requires IsFailure()
    {
      if Raised? then End<U>.Raised(code) else End<U>.Killed
    }

    function Extract(): T
      requires Value?
    {
      value
    }
  }

  /** What the server process answers a question with. */
  datatype ServerAnswer = Granted | Already | Denied(code: Code)

  /** No request that may have an effect is in the log unless the job knows it tried to write. */
  ghost predicate Honest(log: seq<Event>, writeAttempted: bool) {
    forall e | e in log && e.Sent? && Writes(e.call) :: writeAttempted
  }

  /** The request at this place of the log follows directly on its questions: the token if it carries one, the permit,
      and, unless it only asks for a state, the write grant. */
  predicate AskedBefore(log: seq<Event>, i: nat)
    requires i < |log| && log[i].Sent?
  {
    var call := log[i].call;
    var permit := i - if AsksState(call) then 1 else 2;
    && permit >= 0 && log[permit] == Asked(Permit)
    && (!AsksState(call) ==> log[i - 1] == Asked(Write))
    && (call.Api? || call.withToken ==> permit >= 1 && log[permit - 1] == Asked(Token))
  }

  predicate Ordered(log: seq<Event>) {
    forall i | 0 <= i < |log| && log[i].Sent? :: AskedBefore(log, i)
  }

  lemma OrderedMore(log: seq<Event>, call: Call, begun: bool, part: seq<Event>)
    requires Ordered(log) && part <= CallLog(call, begun)
    ensures Ordered(log + part)
  {
    MethodsTellApart(call);
    var whole, asks := CallLog(call, begun), Asks(call, begun);
    var n, all := |asks|, log + part;
    forall i | 0 <= i < |all| && all[i].Sent? ensures AskedBefore(all, i) {
      if i < |log| {
        assert AskedBefore(log, i);
      } else {
        assert part[i - |log|] == whole[i - |log|];
        assert i - |log| == n && part == whole;
        assert forall k | 0 <= k < n :: all[|log| + k] == Asked(asks[k]);
      }
    }
  }

  lemma {:induction false} LogIsOrdered(c: Contract, t: Task, base: seq<Event>, replies: seq<Reply>)
    requires TaskOk(t) && Ordered(base)
    ensures Ordered(base + LogAfter(c, t, replies))
    decreases |replies|
  {
    hide Ordered, CallOf, Run, TaskOk, CallLog;
    if replies == [] {
      assert base + LogAfter(c, t, replies) == base;
    } else {
      var before := replies[..|replies| - 1];
      LogIsOrdered(c, t, base, before);
      var log, last := base + LogAfter(c, t, before), CallOf(c, t, Run(c, t, before));
      Associative(base, LogAfter(c, t, before), CallLogAt(c, t, before));
      if last.Some? {
        OrderedMore(log, last.value, before != [], CallLog(last.value, before != []));
      } else {
        assert log + [] == log;
      }
    }
  }

  class Adapter {
    const c: Contract
    const provider: seq<Reply>        // the provider's answers, in order; the job is killed after the last
    const server: seq<ServerAnswer>   // the server's answers to questions, in order
    var answered: nat
    var asked: nat
    var begonnen: bool
    var schreibversuch: bool
    var kopien: seq<Copy>
    var log: seq<Event>

    constructor (c: Contract, provider: seq<Reply>, server: seq<ServerAnswer>)
      ensures this.c == c && this.provider == provider && this.server == server
      ensures answered == 0 && asked == 0 && !begonnen && !schreibversuch && kopien == [] && log == []
    {
      this.c, this.provider, this.server := c, provider, server;
      answered, asked, begonnen, schreibversuch, kopien, log := 0, 0, false, false, [], [];
    }

    /** The program stands where the automaton stands, with the automaton's log behind it. */
    ghost predicate At(t: Task, pc: Pc, base: seq<Event>)
      reads this
    {
      && answered <= |provider| && asked <= |server| && begonnen == (answered > 0) && Honest(log, schreibversuch)
      && StandsAt(c, t, base, log, provider[..answered], pc)
    }

    /** The program ended early. */
    ghost predicate Stopped(t: Task, code: Option<Code>, base: seq<Event>)
      reads this
    {
      && answered <= |provider| && asked <= |server| && Honest(log, schreibversuch)
      && StoppedAt(c, t, base, log, provider[..answered], code, Cut(code))
    }

    /** The server said no, or the job was killed while it waited for the server or the provider. */
    ghost predicate Cut(code: Option<Code>)
      reads this
      requires asked <= |server|
    {
      match code
      case None => asked == |server| || answered == |provider|
      case Some(c) => asked > 0 && server[asked - 1] == Denied(c)
    }

    /** The automaton failed here, and so does the program. */
    lemma FailsAt(t: Task, code: Code, base: seq<Event>)
      requires At(t, Failed(code), base)
      ensures Stopped(t, Some(code), base)
    {
    }

    static function CodeOf<T>(r: End<T>): Option<Code> {
      if r.Raised? then Some(r.code) else None
    }

    method AskServer(ask: Ask) returns (r: End<ServerAnswer>)
      requires asked <= |server|
      modifies this
      ensures log == old(log) + [Asked(ask)] && asked <= |server|
      ensures answered == old(answered) && begonnen == old(begonnen) && schreibversuch == old(schreibversuch)
      ensures !r.Value? ==> Cut(CodeOf(r))
      ensures r.Value? ==> asked == old(asked) + 1 && r.value == server[old(asked)] && !r.value.Denied?
      ensures old(asked) == |server| ==> r.Killed?
      ensures old(asked) < |server| ==> r == if server[old(asked)].Denied? then Raised(server[old(asked)].code)
                                             else Value(server[old(asked)])
    {
      log := log + [Asked(ask)];
      if asked == |server| {
        return Killed;
      }
      asked := asked + 1;
      return if server[asked - 1].Denied? then Raised(server[asked - 1].code) else Value(server[asked - 1]);
    }

    /** `_begin` and the access token: the questions before the transport takes over. */
    method Prepare(call: Call) returns (r: End<()>)
      requires asked <= |server|
      modifies this
      ensures asked <= |server| && answered == old(answered) && schreibversuch == old(schreibversuch)
      ensures old(log) <= log <= old(log) + AskEvents(Before(call, old(begonnen)))
      ensures r.Value? ==> begonnen && log == old(log) + AskEvents(Before(call, old(begonnen)))
      ensures !r.Value? ==> old(log) < log && Cut(CodeOf(r))
      ensures Honest(old(log), schreibversuch) ==> Honest(log, schreibversuch)
    {
      ghost var asks := Before(call, begonnen);
      if !begonnen {
        assert AskEvents(asks)[0] == Asked(Count);
        var _ :- AskServer(Count);
        begonnen := true;
      }
      if NeedsToken(call) {
        assert AskEvents(asks)[|asks| - 1] == Asked(Token);
        var _ :- AskServer(Token);
      }
      assert log == old(log) + AskEvents(asks);
      return Value(());
    }

    /** `WriteTransport.exchange`: the permit, for a write the write grant, then the request. */
    method Exchange(call: Call) returns (r: End<Reply>)
      requires asked <= |server| && answered <= |provider|
      modifies this
      ensures asked <= |server| && answered <= |provider| && begonnen == old(begonnen)
      ensures answered == old(answered) || answered == old(answered) + 1
      ensures old(log) < log <= old(log) + AskEvents(Granting(call)) + [Sent(call)]
      ensures Honest(old(log), old(schreibversuch)) ==> Honest(log, schreibversuch)
      ensures answered == old(answered) ==> !r.Value? && Cut(CodeOf(r))
      ensures answered == old(answered) + 1 ==>
                && log == old(log) + AskEvents(Granting(call)) + [Sent(call)]
                && var reply := provider[old(answered)];
                   r == if reply.Refused? then Raised(reply.code) else Value(reply)
    {
      ghost var asks := AskEvents(Granting(call)) + [Sent(call)];
      assert asks == [Asked(Permit)] + (if Writes(call) then [Asked(Write)] else []) + [Sent(call)];
      var _ :- AskServer(Permit);
      if Writes(call) {
        var _ :- AskServer(Write);
        schreibversuch := true;
      }
      log := log + [Sent(call)];
      assert log == old(log) + asks;
      if answered == |provider| {
        return Killed;
      }
      answered := answered + 1;
      var reply := provider[answered - 1];
      if reply.Refused? {
        return Raised(reply.code);
      }
      return Value(reply);
    }

    /** One request with its questions; the automaton takes the same step. */
    method Request(call: Call, ghost t: Task, ghost pc: Pc, ghost base: seq<Event>) returns (r: End<Reply>)
      requires At(t, pc, base) && CallOf(c, t, pc) == Some(call)
      modifies this
      ensures r.Value? ==> r.value.Answer? && answered == old(answered) + 1 <= |provider|
      ensures r.Value? ==> At(t, Advance(c, t, pc, r.value), base)
      ensures !r.Value? ==> Stopped(t, CodeOf(r), base)
    {
      hide Run, LogAfter, Advance, CallOf, TaskOk, Asks, Honest;
      ghost var replies, before := provider[..answered], log;
      ghost var first, second := AskEvents(Before(call, begonnen)), AskEvents(Granting(call)) + [Sent(call)];
      CallLogParts(call, begonnen);
      var prepared := Prepare(call);
      if prepared.IsFailure() {
        PrefixOfMore(log, before, first, second);
        StopsInside(c, t, base, before, log, replies, pc, call, CodeOf(prepared));
        return prepared.PropagateFailure();
      }
      ghost var middle := log;
      r := Exchange(call);
      assert before + (first + second) == middle + second;
      if answered == |replies| + 1 {
        assert provider[..answered] == replies + [provider[|replies|]];
        Proceeds(c, t, base, before, log, replies, provider[|replies|], pc, call);
        if !r.Value? {
          FailsAt(t, provider[|replies|].code, base);
        }
      } else {
        StopsInside(c, t, base, before, log, replies, pc, call, CodeOf(r));
      }
    }

    method Api(op: Op, urn: string, body: Body, ghost t: Task, ghost pc: Pc, ghost base: seq<Event>) returns (r: End<Reply>)
      requires At(t, pc, base) && CallOf(c, t, pc) == Some(Call.Api(op, urn, body))
      modifies this
      ensures r.Value? ==> r.value.Answer? && r.value.status == Expected(op) && answered == old(answered) + 1 <= |provider|
      ensures r.Value? ==> At(t, Advance(c, t, pc, r.value), base)
      ensures !r.Value? ==> Stopped(t, CodeOf(r), base)
    {
      hide At, Stopped, LittleText;
      var reply :- Request(Call.Api(op, urn, body), t, pc, base);
      if reply.status != Expected(op) {
        FailsAt(t, SHAPE, base);
        return Raised(SHAPE);
      }
      return Value(reply);
    }

    method Upload(url: string, data: seq<Byte>, kind: Kind, ghost t: Task, ghost pc: Pc, ghost base: seq<Event>)
      returns (r: End<Reply>)
      requires c.urlOk(url) ==> At(t, pc, base) && CallOf(c, t, pc) == Some(Call.Upload(url, data, kind != Video))
      requires !c.urlOk(url) ==> At(t, Failed("upload_ziel_abgewiesen"), base)
      modifies this
      ensures r.Value? ==> r.value.Answer? && At(t, Advance(c, t, pc, r.value), base)
      ensures !r.Value? ==> Stopped(t, CodeOf(r), base)
    {
      hide At, Stopped;
      if !c.urlOk(url) {
        FailsAt(t, "upload_ziel_abgewiesen", base);
        return Raised("upload_ziel_abgewiesen");
      }
      r := Request(Call.Upload(url, data, kind != Video), t, pc, base);
    }

    /** `_asset`: initialise, check the answer, send the bytes.  `ids` are the pictures already there. */
    method Asset(op: Op, kind: Kind, data: seq<Byte>, ghost ids: seq<string>, ghost t: Task, ghost base: seq<Event>)
      returns (r: End<string>)
      requires (op == ImageInit && kind == Picture) || (op == DocumentInit && kind == Document)
      requires At(t, if op == ImageInit then InitPicture(ids) else InitDocument, base)
      requires op == ImageInit ==> |ids| < |t.data| && t.data[|ids|] == data
      requires op == DocumentInit ==> t.data != [] && t.data[0] == data && t.effect.media != []
      modifies this
      ensures r.Value? ==> At(t, AfterAsset(t, op, ids, r.value), base)
      ensures !r.Value? ==> Stopped(t, CodeOf(r), base)
    {
      hide At, Stopped;
      ghost var pc := if op == ImageInit then InitPicture(ids) else InitDocument;
      var reply :- Api(op, "", InitBody(c.organization), t, pc, base);
      if reply.value == None {
        FailsAt(t, SHAPE, base);
        return Raised(SHAPE);
      }
      var asset := reply.value.value.asset;
      if asset == None || !c.assetUrn(if op == ImageInit then ImageAsset else DocumentAsset, asset.value) {
        FailsAt(t, SHAPE, base);
        return Raised(SHAPE);
      }
      if reply.value.value.url == None {
        FailsAt(t, SHAPE, base);
        return Raised(SHAPE);
      }
      var url := reply.value.value.url.value;
      ghost var put := if op == ImageInit then PutPicture(ids, asset.value, url) else PutDocument(asset.value, url);
      var _ :- Upload(url, data, kind, t, put, base);
      return Value(asset.value);
    }

    /** `_video`: initialise, send the parts of the one copy, finalise, wait for availability. */
    method SendVideo(data: seq<Byte>, ghost t: Task, ghost base: seq<Event>) returns (r: End<string>)
      requires At(t, InitVideo, base) && t.data != [] && t.data[0] == data
      modifies this
      ensures r.Value? ==> At(t, Publish(Single(r.value), Some(r.value)), base)
      ensures !r.Value? ==> Stopped(t, CodeOf(r), base)
    {
      hide At, Stopped, Parts, TaskOk;
      var reply :- Api(VideoInit, "", VideoInitBody(c.organization, |data|), t, InitVideo, base);
      if reply.value == None {
        FailsAt(t, SHAPE, base);
        return Raised(SHAPE);
      }
      var value := reply.value.value;
      if value.asset == None || !c.assetUrn(VideoAsset, value.asset.value) {
        FailsAt(t, SHAPE, base);
        return Raised(SHAPE);
      }
      var urn := value.asset.value;
      if value.token == None {
        FailsAt(t, SHAPE, base);
        return Raised(SHAPE);
      }
      var token := value.token.value;
      if value.instructions == None {
        FailsAt(t, "upload_teile_ungueltig", base);
        return Raised("upload_teile_ungueltig");
      }
      var teile := VideoTeile(value.instructions.value, |data|, c.urlOk);
      if teile.Err? {
        FailsAt(t, teile.error, base);
        return Raised(teile.error);
      }
      PartsUsable(value.instructions.value, |data|, c.urlOk);
      var etags :- UploadParts(data, urn, token, teile.value, t, base);
      r := FinishVideo(urn, token, etags, t, base);
    }

    method UploadParts(data: seq<Byte>, urn: string, token: string, parts: seq<Part>, ghost t: Task, ghost base: seq<Event>)
      returns (r: End<seq<string>>)
      requires At(t, PutPart(urn, token, parts, []), base) && t.data != [] && t.data[0] == data && parts != []
      requires forall p | p in parts :: c.urlOk(p.url) && p.first <= p.last < |data|
      modifies this
      ensures r.Value? ==> At(t, Finalize(urn, token, r.value), base)
      ensures !r.Value? ==> Stopped(t, CodeOf(r), base)
    {
      hide At, Stopped, TaskOk;
      var etags: seq<string> := [];
      for i := 0 to |parts|
        invariant |etags| == i
        invariant At(t, if i < |parts| then PutPart(urn, token, parts, etags) else Finalize(urn, token, etags), base)
      {
        var p := parts[i];
        assert p in parts;
        var headers :- Upload(p.url, data[p.first..p.last + 1], Video, t, PutPart(urn, token, parts, etags), base);
        if !EtagOk(headers.etag) {
          FailsAt(t, SHAPE, base);
          return Raised(SHAPE);
        }
        etags := etags + [headers.etag.value];
      }
      return Value(etags);
    }

    method FinishVideo(urn: string, token: string, etags: seq<string>, ghost t: Task, ghost base: seq<Event>)
      returns (r: End<string>)
      requires At(t, Finalize(urn, token, etags), base)
      modifies this
      ensures r.Value? ==> At(t, Publish(Single(urn), Some(urn)), base) && r.value == urn
      ensures !r.Value? ==> Stopped(t, CodeOf(r), base)
    {
      hide At, Stopped, TaskOk;
      var finalized :- Api(VideoFinalize, "", FinalizeBody(urn, token, etags), t, Finalize(urn, token, etags), base);
      var deadline := finalized.at + MAX_WAIT_SECONDS;
      while true
        invariant At(t, Status(urn, deadline), base)
        decreases |provider| - answered
      {
        var status :- Api(VideoStatus, urn, NoBody, t, Status(urn, deadline), base);
        if status.state == Some("AVAILABLE") {
          return Value(urn);
        }
        if status.state != Some("PROCESSING") && status.state != Some("WAITING_UPLOAD") {
          FailsAt(t, "video_verarbeitung_fehlgeschlagen", base);
          return Raised("video_verarbeitung_fehlgeschlagen");
        }
        if status.at + POLL_SECONDS > deadline {
          FailsAt(t, "video_nicht_verfuegbar", base);
          return Raised("video_nicht_verfuegbar");
        }
      }
    }

    method UploadPictures(media: seq<Copy>, ghost t: Task, ghost base: seq<Event>) returns (r: End<seq<string>>)
      requires media != [] && |t.data| == |media| && forall i | 0 <= i < |media| :: t.data[i] == media[i].data
      requires At(t, InitPicture([]), base) && FormatOf(t) == Ok(Pictures)
      modifies this
      ensures r.Value? ==> At(t, Publish(Many(r.value), None), base)
      ensures !r.Value? ==> Stopped(t, CodeOf(r), base)
    {
      hide At, Stopped, TaskOk, FormatOf, Honest, Advance, CallOf;
      var ids: seq<string> := [];
      for i := 0 to |media|
        invariant |ids| == i
        invariant At(t, if i < |media| then InitPicture(ids) else Publish(Many(ids), None), base)
      {
        var id :- Asset(ImageInit, Picture, media[i].data, ids, t, base);
        ids := ids + [id];
      }
      return Value(ids);
    }

    method Attach(entry: Entry, media: seq<Copy>, format: Format, ghost t: Task, ghost base: seq<Event>)
      returns (r: End<(Content, Option<string>)>)
      requires Usable(entry, Post) && Fits(entry, media, format)
      requires t == TaskOf(c, Post, entry, media) && TaskOk(t)
      requires At(t, Start(t), base)
      modifies this
      ensures r.Value? ==> At(t, Publish(r.value.0, r.value.1), base)
      ensures !r.Value? ==> Stopped(t, CodeOf(r), base)
    {
      TaskOfFits(c, entry, media, format);
      hide At, Stopped, TaskOk, FormatOf, EffectOf, TaskOf, CheckFormat, Honest, Advance, CallOf, Usable;
      match format {
        case OnePicture =>
          r := AttachPicture(media[0], t, base);
        case Pictures =>
          var ids :- UploadPictures(media, t, base);
          return Value((Many(ids), None));
        case OneDocument =>
          r := AttachDocument(media[0], t, base);
        case OneVideo =>
          var urn :- SendVideo(media[0].data, t, base);
          return Value((Single(urn), Some(urn)));
        case PollOnly =>
          r := AttachPoll(entry.poll.value, t, base);
        case _ =>
          return Value((NoContent, None));
      }
    }

    method AttachPicture(copy: Copy, ghost t: Task, ghost base: seq<Event>) returns (r: End<(Content, Option<string>)>)
      requires TaskOk(t) && FormatOf(t) == Ok(OnePicture) && |t.data| == 1 && t.data[0] == copy.data
      requires At(t, InitPicture([]), base)
      modifies this
      ensures r.Value? ==> At(t, Publish(r.value.0, r.value.1), base)
      ensures !r.Value? ==> Stopped(t, CodeOf(r), base)
    {
      hide At, Stopped, TaskOk, FormatOf;
      var id :- Asset(ImageInit, Picture, copy.data, [], t, base);
      return Value((Single(id), None));
    }

    method AttachDocument(copy: Copy, ghost t: Task, ghost base: seq<Event>) returns (r: End<(Content, Option<string>)>)
      requires TaskOk(t) && t.data != [] && t.data[0] == copy.data
      requires t.effect.media != [] && t.effect.media[0].name == copy.name
      requires At(t, InitDocument, base)
      modifies this
      ensures r.Value? ==> At(t, Publish(r.value.0, r.value.1), base)
      ensures !r.Value? ==> Stopped(t, CodeOf(r), base)
    {
      hide At, Stopped, TaskOk, FormatOf;
      var id :- Asset(DocumentInit, Document, copy.data, [], t, base);
      return Value((Titled(id, copy.name), None));
    }

    method AttachPoll(poll: Poll, ghost t: Task, ghost base: seq<Event>) returns (r: End<(Content, Option<string>)>)
      requires TaskOk(t) && FormatOf(t) == Ok(PollOnly) && t.effect.poll == Some(poll)
      requires At(t, Start(t), base)
      modifies this
      ensures r.Value? ==> At(t, Publish(r.value.0, r.value.1), base)
      ensures !r.Value? ==> Stopped(t, CodeOf(r), base)
    {
      hide At, Stopped, TaskOk, FormatOf;
      var duration := DurationName(poll.duration);
      if duration == None {
        FailsAt(t, "source_unavailable", base);
        return Raised("source_unavailable");
      }
      return Value((Survey(poll.question, poll.answers, duration.value), None));
    }

    /** `_posten`: the media or the poll first, then the post itself. */
    method Posten(entry: Entry, media: seq<Copy>, format: Format, ghost t: Task, ghost base: seq<Event>)
      returns (r: End<Done>)
      requires Usable(entry, Post) && Fits(entry, media, format)
      requires t == TaskOf(c, Post, entry, media) && TaskOk(t)
      requires At(t, Start(t), base)
      modifies this
      ensures r.Value? ==> At(t, Finished(r.value), base)
      ensures !r.Value? ==> Stopped(t, CodeOf(r), base)
    {
      TaskOfFits(c, entry, media, format);
      assert entry.postText.Some?;
      hide At, Stopped, TaskOk, FormatOf, EffectOf, TaskOf, CheckFormat, Honest, LittleText, Start, Fits, Usable;
      var attached :- Attach(entry, media, format, t, base);
      var text := Little(entry.postText.value, c.alnum);
      r := CreatePost(text, attached.0, attached.1, t, base);
    }

    method CreatePost(text: string, content: Content, video: Option<string>, ghost t: Task, ghost base: seq<Event>)
      returns (r: End<Done>)
      requires At(t, Publish(content, video), base) && TaskOk(t) && text == LittleText(t.effect.text, c.alnum)
      modifies this
      ensures r.Value? ==> At(t, Finished(r.value), base)
      ensures !r.Value? ==> Stopped(t, CodeOf(r), base)
    {
      hide At, Stopped, TaskOk, FormatOf, LittleText;
      var reply :- Api(PostCreate, "", CreateBody(c.organization, text, content), t, Publish(content, video), base);
      if reply.restliId == None || !c.postUrn(reply.restliId.value) {
        FailsAt(t, SHAPE, base);
        return Raised(SHAPE);
      }
      return Value(Done(StateOf(Publish(content, video)), reply.restliId.value, video, None));
    }

    /** `_laden`: the entry once, each file once into a private copy, every check before the hash. */
    method Laden(action: Redaktion.Action, gateway: Gateway) returns (r: End<(Entry, seq<Copy>, Format)>)
      requires kopien == []
      modifies this`kopien
      ensures r == Loading(action, gateway)
      ensures r.Value? ==> kopien == r.value.1
    {
      hide EntryFromRecord, CheckFormat, KindOf, Usable;
      if gateway.record.Err? {
        return Raised(gateway.record.error);
      }
      var loaded := EntryFromRecord(gateway.record.value, action, gateway.checks);
      if loaded.Err? {
        return Raised(loaded.error);
      }
      var entry := loaded.value;
      var format := CheckFormat(action, entry.media, entry.poll);
      if format.Err? {
        return Raised(format.error);
      }
      var total := 0;
      for i := 0 to |entry.media|
        invariant LoadFiles(entry.media[..i], gateway) == Value((kopien, total))
      {
        var name := entry.media[i];
        assert entry.media[..i + 1][..i] == entry.media[..i];
        if !LoadFiles(entry.media[..i + 1], gateway).Value? {
          LoadStops(entry.media, gateway, i + 1);
        }
        if i >= |gateway.files| {
          return Killed;
        }
        if gateway.files[i].Err? {
          return Raised(gateway.files[i].error);
        }
        var data := gateway.files[i].value;
        kopien := kopien + [Copy(name, data)];
        total := total + |data|;
        if total > MAX_MEDIEN_GESAMT {
          return Raised("medium_zu_gross");
        }
        if KindOf(name) == None || !gateway.magicOk(KindOf(name).value, data) {
          return Raised("medium_format_ungueltig");
        }
      }
      assert entry.media[..|entry.media|] == entry.media;
      return Value((entry, kopien, format.value));
    }

    /** `vorschau`: the same reading as a job, shown instead of performed; no question, no request. */
    method Vorschau(request: WriteRequest, gateway: Gateway) returns (r: End<Preview>)
      requires kopien == []
      modifies this`kopien
      ensures forall copy | copy in kopien :: copy.data == []
      ensures match Loading(request.action, gateway)
              case Value((entry, media, _)) => r == Value(PreviewOf(c, request, entry, media))
              case Raised(code) => r == Raised(code)
              case Killed => r == Killed
    {
      hide EntryFromRecord, CheckFormat, Usable;
      var loaded := Laden(request.action, gateway);
      if loaded.Value? {
        var (entry, media, format) := loaded.value;
        r := Value(PreviewOf(c, request, entry, media));
      } else {
        r := loaded.PropagateFailure();
      }
      Wipe();
    }

    method Wipe()
      modifies this`kopien
      ensures forall copy | copy in kopien :: copy.data == []
    {
      kopien := seq(|kopien|, i requires 0 <= i < |kopien| reads this => Copy(kopien[i].name, []));
    }

    /** How a job ends, from what it read, what its request approves and what its server and the provider say. */
    ghost predicate EndsRight(request: WriteRequest, gateway: Gateway, r: End<Option<Payload>>)
      reads this
    {
      match Loading(request.action, gateway)
      case Raised(code) => log == [] && r == Raised(code)
      case Killed => log == [] && r == Killed
      case Value((entry, media, format)) =>
        var t := TaskOf(c, request.action, entry, media);
        var digest := ApprovalHash(t.effect, c.hash);
        if request.freigabe != digest then log == [] && r == Raised("nicht_freigegeben")
        else if server == [] then log == [Asked(Report(digest))] && r == Killed
        else
          match server[0]
          case Denied(code) => log == [Asked(Report(digest))] && r == Raised(code)
          case Already => log == [Asked(Report(digest))] && r == Value(None)
          case Granted =>
            if !r.Value? then Stopped(t, CodeOf(r), [Asked(Report(digest))])
            else
              && r.value.Some?
              && At(t, Finished(r.value.value.done), [Asked(Report(digest))])
              && r.value.value == Payload(ActionName(request.action), request.entryId, digest, format,
                                          r.value.value.done, false)
    }

    lemma EndsOrdered(request: WriteRequest, gateway: Gateway, r: End<Option<Payload>>)
      requires EndsRight(request, gateway, r)
      ensures Ordered(log)
    {
      hide Loading, Run, LogAfter, ApprovalHash, EffectOf, CallOf, CallLog, TaskOk, Honest;
      match Loading(request.action, gateway) {
        case Raised(_) =>
        case Killed =>
        case Value((entry, media, format)) =>
          var t := TaskOf(c, request.action, entry, media);
          var base := [Asked(Report(ApprovalHash(t.effect, c.hash)))];
          if log != [] && log != base {
            var replies := provider[..answered];
            LogIsOrdered(c, t, base, replies);
            var whole, call := base + LogAfter(c, t, replies), CallOf(c, t, Run(c, t, replies));
            if log != whole {
              assert log == whole + log[|whole|..];
              OrderedMore(whole, call.value, replies != [], log[|whole|..]);
            }
          }
      }
    }

    /** `run`: load, compare the hash with the approval, report it, act, and wipe on every path.  `None`
        means that the server already holds the result. */
    method Perform(request: WriteRequest, gateway: Gateway) returns (r: End<Option<Payload>>)
      requires answered == 0 && asked == 0 && !begonnen && !schreibversuch && kopien == [] && log == []
      modifies this
      ensures forall copy | copy in kopien :: copy.data == []
      ensures Honest(log, schreibversuch) && Ordered(log)
      ensures EndsRight(request, gateway, r)
    {
      hide Loading, Run, LogAfter, ApprovalHash, TaskOf, Ordered;
      r := Act(request, gateway);
      EndsOrdered(request, gateway, r);
      Wipe();
    }

    method Act(request: WriteRequest, gateway: Gateway) returns (r: End<Option<Payload>>)
      requires answered == 0 && asked == 0 && !begonnen && !schreibversuch && kopien == [] && log == []
      modifies this
      ensures Honest(log, schreibversuch)
      ensures EndsRight(request, gateway, r)
    {
      hide EntryFromRecord, CheckFormat, Usable, Run, LogAfter, Start, EffectOf, ApprovalHash, TaskOk, Fits, Loading;
      var loaded :- Laden(request.action, gateway);
      var (entry, media, format) := loaded;
      var effect := EffectOf(request.action, entry, media, c.organization, c.hash);
      var digest := ApprovalHash(effect, c.hash);
      if request.freigabe != digest {
        return Raised("nicht_freigegeben");
      }
      ghost var t := TaskOf(c, request.action, entry, media);
      ghost var base := [Asked(Report(digest))];
      var reported :- AskServer(Report(digest));
      if reported == Already {
        return Value(None);
      }
      LoadedFits(request.action, gateway);
      TaskOfOk(c, request.action, entry, media, format);
      assert provider[..0] == [];
      StartStands(c, t, base);
      var done :- Dispatch(request.action, entry, media, format, t, base);
      return Value(Some(Payload(ActionName(request.action), request.entryId, digest, format, done, false)));
    }

    /** The four actions. */
    method Dispatch(
        action: Redaktion.Action, entry: Entry, media: seq<Copy>, format: Format, ghost t: Task, ghost base: seq<Event>)
      returns (r: End<Done>)
      requires Usable(entry, action) && (action == Post ==> Fits(entry, media, format))
      requires t == TaskOf(c, action, entry, media) && TaskOk(t)
      requires At(t, Start(t), base)
      modifies this
      ensures r.Value? ==> At(t, Finished(r.value), base)
      ensures !r.Value? ==> Stopped(t, CodeOf(r), base)
    {
      TargetStarts(c, action, entry, media);
      hide Run, LogAfter, Honest, CheckFormat, LittleText, Start, EffectOf, TaskOf, TaskOk, Fits, Usable, Advance, StateOf;
      match action {
        case Post =>
          r := Posten(entry, media, format, t, base);
        case Edit =>
          var text := Little(entry.postText.value, c.alnum);
          r := Target(PostUpdate, entry.postUrn.value, PatchBody(text), StateOf(Change), t, Change, base);
        case Delete =>
          r := Target(PostDelete, entry.postUrn.value, NoBody, StateOf(Remove), t, Remove, base);
        case Comment =>
          r := Target(CommentCreate, entry.postUrn.value,
                      CommentBody(c.organization, entry.postUrn.value, entry.commentText.value), StateOf(Respond),
                      t, Respond, base);
      }
    }

    /** The one request of an action on a published post. */
    method Target(op: Op, urn: string, body: Body, state: string, ghost t: Task, ghost pc: Pc, ghost base: seq<Event>)
      returns (r: End<Done>)
      requires pc.Change? || pc.Remove? || pc.Respond?
      requires state == StateOf(pc)
      requires At(t, pc, base) && CallOf(c, t, pc) == Some(Call.Api(op, urn, body)) && urn == t.effect.target
      modifies this
      ensures r.Value? ==> At(t, Finished(r.value), base)
      ensures !r.Value? ==> Stopped(t, CodeOf(r), base)
    {
      hide At, Stopped, Honest, TaskOk, LittleText;
      var reply :- Api(op, urn, body, t, pc, base);
      if op != CommentCreate {
        return Value(Done(state, urn, None, None));
      }
      if reply.restliId == None || !c.commentId(reply.restliId.value) {
        FailsAt(t, SHAPE, base);
        return Raised(SHAPE);
      }
      return Value(Done(state, urn, None, reply.restliId));
    }
  }

  const MAX_MEDIEN_GESAMT: nat := 64 * 1024 * 1024

  datatype WriteRequest = WriteRequest(action: Redaktion.Action, entryId: string, freigabe: string)

  /** What the gateway hands over: the record, and for each read of a file its bytes, in order. */
  datatype Gateway = Gateway(
    record: Result<map<string, Field>, Code>, checks: FieldChecks,
    files: seq<Result<seq<Byte>, Code>>, magicOk: (Kind, seq<Byte>) -> bool)

  datatype Payload = Payload(
    action: string, entryId: string, hash: string, format: Format, done: Done, repeated: bool)

  datatype ShownMedium = ShownMedium(name: string, sha256: string, kind: Option<Kind>, bytes: nat)

  /** What the user decides on. */
  datatype Preview = Preview(
    entryId: string, action: string, format: Result<Format, Code>, target: string, text: string,
    media: seq<ShownMedium>, poll: Option<Poll>, postText: Option<string>, postUrn: Option<string>,
    commentText: Option<string>, documentTitle: Option<string>, hash: string)

  function PreviewOf(c: Contract, request: WriteRequest, entry: Entry, media: seq<Copy>): Preview
    requires Usable(entry, request.action)
  {
    var effect, format := EffectOf(request.action, entry, media, c.organization, c.hash),
                          CheckFormat(request.action, entry.media, entry.poll);
    Preview(
      request.entryId, ActionName(request.action), format, effect.target, effect.text,
      seq(|media|, i requires 0 <= i < |media| =>
            ShownMedium(media[i].name, c.hash(media[i].data), KindOf(media[i].name), |media[i].data|)),
      effect.poll,
      if request.action == Post || request.action == Edit then entry.postText else None,
      entry.postUrn,
      if request.action == Comment then entry.commentText else None,
      if format == Ok(OneDocument) && media != [] then Some(media[0].name) else None,
      ApprovalHash(effect, c.hash))
  }

  /** The effect that the fields on display describe. */
  function Displayed(preview: Preview): Effect {
    Effect(preview.action,
           seq(|preview.media|, i requires 0 <= i < |preview.media| =>
                 Medium(preview.media[i].name, preview.media[i].sha256)),
           preview.text, preview.poll, preview.target)
  }

  /** Whoever recomputes the hash from the fields on display gets the hash on display, and exactly the job that
      reads the same entry and files is approved by it. */
  lemma PreviewIsTheJob(c: Contract, request: WriteRequest, gateway: Gateway)
    requires Reading(request.action, gateway).Some?
    ensures var (entry, media) := Reading(request.action, gateway).value;
            var preview := PreviewOf(c, request, entry, media);
            && Displayed(preview) == TaskFor(c, request, gateway).effect
            && ApprovalHash(Displayed(preview), c.hash) == preview.hash
            && (Approved(c, request, gateway) <==> request.freigabe == preview.hash)
  {
    var (entry, media) := Reading(request.action, gateway).value;
    LoadedFits(request.action, gateway);
    hide EntryFromRecord, CheckFormat, ApprovalHash, KindOf;
    assert Displayed(PreviewOf(c, request, entry, media)).media == TaskFor(c, request, gateway).effect.media;
  }

  /** The first files of an entry, one after the other: read, counted into the total, checked for their kind. */
  function LoadFiles(names: seq<string>, gateway: Gateway): End<(seq<Copy>, nat)> {
    if names == [] then Value(([], 0))
    else
      var i, name := |names| - 1, names[|names| - 1];
      match LoadFiles(names[..i], gateway)
      case Raised(code) => Raised(code)
      case Killed => Killed
      case Value((copies, total)) =>
        if i >= |gateway.files| then Killed
        else if gateway.files[i].Err? then Raised(gateway.files[i].error)
        else
          var data := gateway.files[i].value;
          if total + |data| > MAX_MEDIEN_GESAMT then Raised("medium_zu_gross")
          else if KindOf(name) == None || !gateway.magicOk(KindOf(name).value, data) then Raised("medium_format_ungueltig")
          else Value((copies + [Copy(name, data)], total + |data|))
  }

  /** The one reading of an entry and its files that a job works with, or its first complaint. */
  function Loading(action: Redaktion.Action, gateway: Gateway): (r: End<(Entry, seq<Copy>, Format)>)
    ensures r.Value? ==> Usable(r.value.0, action) && CheckFormat(action, r.value.0.media, r.value.0.poll) == Ok(r.value.2)
  {
    if gateway.record.Err? then Raised(gateway.record.error)
    else
      match EntryFromRecord(gateway.record.value, action, gateway.checks)
      case Err(code) => Raised(code)
      case Ok(entry) =>
        match CheckFormat(action, entry.media, entry.poll)
        case Err(code) => Raised(code)
        case Ok(format) =>
          match LoadFiles(entry.media, gateway)
          case Raised(code) => Raised(code)
          case Killed => Killed
          case Value((copies, _)) => Value((entry, copies, format))
  }

  /** Every copy is the file of its name and of the kind its name says, and all of them together are at most 64 MiB. */
  lemma {:induction false} LoadedCopies(names: seq<string>, gateway: Gateway)
    requires LoadFiles(names, gateway).Value?
    ensures var copies := LoadFiles(names, gateway).value.0;
            && |copies| == |names| <= |gateway.files|
            && (forall k | 0 <= k < |names| :: gateway.files[k] == Ok(copies[k].data) && copies[k].name == names[k])
            && (forall k | 0 <= k < |names| ::
                  KindOf(names[k]).Some? && gateway.magicOk(KindOf(names[k]).value, copies[k].data))
            && LoadFiles(names, gateway).value.1 == TotalSize(copies) <= 67108864
  {
    hide KindOf;
    if names != [] {
      LoadedCopies(names[..|names| - 1], gateway);
    }
  }

  function TotalSize(copies: seq<Copy>): nat {
    if copies == [] then 0 else TotalSize(copies[..|copies| - 1]) + |copies[|copies| - 1].data|
  }

  /** The first complaint stays the complaint. */
  lemma {:induction false} LoadStops(names: seq<string>, gateway: Gateway, n: nat)
    requires n <= |names| && !LoadFiles(names[..n], gateway).Value?
    ensures LoadFiles(names, gateway) == LoadFiles(names[..n], gateway)
    decreases |names|
  {
    hide KindOf;
    if n < |names| {
      var front := names[..|names| - 1];
      assert front[..n] == names[..n];
      LoadStops(front, gateway, n);
    } else {
      assert names[..n] == names;
    }
  }

  lemma LoadedFits(action: Redaktion.Action, gateway: Gateway)
    requires Loading(action, gateway).Value?
    ensures var (entry, media, format) := Loading(action, gateway).value;
            |media| == |entry.media| && forall i | 0 <= i < |media| :: media[i].name == entry.media[i]
  {
    hide EntryFromRecord, CheckFormat, KindOf, LoadFiles;
    LoadedCopies(Loading(action, gateway).value.0.media, gateway);
  }

  /** What a job that gets as far as its hash has read. */
  function Reading(action: Redaktion.Action, gateway: Gateway): (r: Option<(Entry, seq<Copy>)>)
    ensures r.Some? ==> Usable(r.value.0, action)
  {
    match Loading(action, gateway)
    case Value((entry, media, _)) => Some((entry, media))
    case _ => None
  }

  /** The job read something usable, and the request approves the hash of exactly that effect. */
  predicate Approved(c: Contract, request: WriteRequest, gateway: Gateway) {
    && Reading(request.action, gateway).Some?
    && ApprovalHash(TaskFor(c, request, gateway).effect, c.hash) == request.freigabe
  }

  function TaskFor(c: Contract, request: WriteRequest, gateway: Gateway): Task
    requires Reading(request.action, gateway).Some?
  {
    var (entry, media) := Reading(request.action, gateway).value;
    TaskOf(c, request.action, entry, media)
  }

  /** The effect and the bytes of one reading of the entry and its files. */
  function TaskOf(c: Contract, action: Redaktion.Action, entry: Entry, media: seq<Copy>): Task
    requires Usable(entry, action)
  {
    Task(action, EffectOf(action, entry, media, c.organization, c.hash),
         seq(|media|, i requires 0 <= i < |media| => media[i].data))
  }

  /** Nothing asked, nothing sent, nothing answered: the automaton at its start. */
  lemma StartStands(c: Contract, t: Task, base: seq<Event>)
    requires TaskOk(t)
    ensures StandsAt(c, t, base, base, [], Start(t))
  {
    assert base + LogAfter(c, t, []) == base;
  }

  /** The three actions on a published post have one request each, fixed by the effect. */
  lemma TargetStarts(c: Contract, action: Redaktion.Action, entry: Entry, media: seq<Copy>)
    requires Usable(entry, action) && TaskOk(TaskOf(c, action, entry, media))
    ensures action == Edit ==> entry.postUrn.Some? && entry.postText.Some?
    ensures action != Post ==> entry.postUrn.Some?
    ensures action == Comment ==> entry.commentText.Some?
    ensures var t := TaskOf(c, action, entry, media);
            match action
            case Post => true
            case Edit => Start(t) == Change && t.effect.target == entry.postUrn.value
                         && t.effect.text == entry.postText.value
            case Delete => Start(t) == Remove && t.effect.target == entry.postUrn.value
            case Comment => Start(t) == Respond && t.effect.target == entry.postUrn.value
                            && t.effect.text == entry.commentText.value
  {
  }

  lemma TaskOfOk(c: Contract, action: Redaktion.Action, entry: Entry, media: seq<Copy>, format: Format)
    requires Usable(entry, action) && CheckFormat(action, entry.media, entry.poll) == Ok(format)
    requires |media| == |entry.media| && forall i | 0 <= i < |media| :: media[i].name == entry.media[i]
    ensures TaskOk(TaskOf(c, action, entry, media)) && Faithful(c, TaskOf(c, action, entry, media))
    ensures action == Post ==> Fits(entry, media, format)
  {
    if action == Post {
      TaskOfFits(c, entry, media, format);
    }
  }

  /** The copies are those of the entry's media, and the format is the one of the entry. */
  predicate Fits(entry: Entry, media: seq<Copy>, format: Format) {
    && |media| == |entry.media|
    && (forall i | 0 <= i < |media| :: media[i].name == entry.media[i])
    && CheckFormat(Post, entry.media, entry.poll) == Ok(format)
  }

  /** The effect keeps what the format depends on, so hash and requests speak of the same shape. */
  lemma TaskOfFits(c: Contract, entry: Entry, media: seq<Copy>, format: Format)
    requires Usable(entry, Post) && Fits(entry, media, format)
    ensures var t := TaskOf(c, Post, entry, media);
            && TaskOk(t) && FormatOf(t) == Ok(format)
            && |t.data| == |media| == |t.effect.media|
            && (forall i | 0 <= i < |media| :: t.data[i] == media[i].data && t.effect.media[i].name == media[i].name)
            && t.effect.poll == entry.poll && t.effect.text == entry.postText.value
            && (format == PollOnly ==> entry.poll.Some?)
            && (format == OnePicture || format == OneDocument || format == OneVideo ==> |media| == 1)
            && (format == Pictures ==> |media| > 1)
            && (forall e: Action :: format != Target(e))
  {
    var t := TaskOf(c, Post, entry, media);
    assert Names(t.effect.media) == entry.media;
  }

  function AfterAsset(t: Task, op: Op, ids: seq<string>, urn: string): Pc
    requires TaskOk(t) && (op != ImageInit ==> t.effect.media != [])
  {
    if op == ImageInit then
      var all := ids + [urn];
      if |all| < |t.data| then InitPicture(all)
      else Publish(if FormatOf(t).value == OnePicture then Single(urn) else Many(all), None)
    else Publish(Titled(urn, t.effect.media[0].name), None)
  }

  /** Accepted parts are there, lie inside the file and have allowed addresses. */
  lemma PartsUsable(items: seq<Instruction>, size: nat, urlOk: string -> bool)
    requires Parts(items, size, urlOk).Ok?
    ensures var parts := Parts(items, size, urlOk).value;
            parts != [] && forall p | p in parts :: urlOk(p.url) && p.first <= p.last < size
  {
    var parts := Parts(items, size, urlOk).value;
    PartsAreTheTiling(items, 0, size, urlOk);
    forall p | p in parts ensures urlOk(p.url) && p.first <= p.last < size {
      var i :| 0 <= i < |parts| && parts[i] == p;
      assert Answers(items[i], parts[i], urlOk);
      TilesInside(parts, 0, size);
    }
  }

  function Before(call: Call, begun: bool): seq<Ask> {
    (if begun then [] else [Count]) + (if NeedsToken(call) then [Token] else [])
  }

  function Granting(call: Call): seq<Ask> {
    [Permit] + (if Writes(call) then [Write] else [])
  }

  lemma PrefixOfMore<T>(s: seq<T>, start: seq<T>, first: seq<T>, second: seq<T>)
    requires s <= start + first
    ensures s <= start + (first + second)
  {
    assert start + (first + second) == (start + first) + second;
  }

  /** The log and the replies are those of the automaton at this point. */
  ghost predicate StandsAt(c: Contract, t: Task, base: seq<Event>, log: seq<Event>, replies: seq<Reply>, pc: Pc) {
    TaskOk(t) && Run(c, t, replies) == pc && log == base + LogAfter(c, t, replies)
  }

  /** The job ended in the automaton's failure, or cut short inside its next call. */
  ghost predicate StoppedAt(
      c: Contract, t: Task, base: seq<Event>, log: seq<Event>, replies: seq<Reply>, code: Option<Code>, cut: bool)
  {
    && TaskOk(t)
    && var whole, pc := base + LogAfter(c, t, replies), Run(c, t, replies);
       if log == whole then code.Some? && pc == Failed(code.value)
       else cut && CallOf(c, t, pc).Some? && whole < log <= whole + CallLog(CallOf(c, t, pc).value, replies != [])
  }

  lemma StopsInside(
      c: Contract, t: Task, base: seq<Event>, before: seq<Event>, log: seq<Event>, replies: seq<Reply>,
      pc: Pc, call: Call, code: Option<Code>)
    requires StandsAt(c, t, base, before, replies, pc) && CallOf(c, t, pc) == Some(call)
    requires before < log <= before + CallLog(call, replies != [])
    ensures StoppedAt(c, t, base, log, replies, code, true)
  {
  }

  lemma RefusedFails(c: Contract, t: Task, pc: Pc, reply: Reply)
    requires TaskOk(t) && CallOf(c, t, pc).Some? && reply.Refused?
    ensures Advance(c, t, pc, reply) == Failed(reply.code)
  {
  }

  /** One more reply: one more call in the log, one more step of the automaton. */
  lemma Proceeds(
      c: Contract, t: Task, base: seq<Event>, before: seq<Event>, log: seq<Event>, replies: seq<Reply>, reply: Reply,
      pc: Pc, call: Call)
    requires StandsAt(c, t, base, before, replies, pc) && CallOf(c, t, pc) == Some(call)
    requires log == before + CallLog(call, replies != [])
    ensures StandsAt(c, t, base, log, replies + [reply], Advance(c, t, pc, reply))
    ensures reply.Refused? ==> Advance(c, t, pc, reply) == Failed(reply.code)
  {
    Unrolled(c, t, replies, reply);
    if reply.Refused? {
      RefusedFails(c, t, pc, reply);
    }
    assert CallLogAt(c, t, replies) == CallLog(call, replies != []);
    hide Run, LogAfter, Advance, CallLog, CallLogAt, CallOf, TaskOk;
    Associative(base, LogAfter(c, t, replies), CallLog(call, replies != []));
  }

  lemma Associative<T>(a: seq<T>, b: seq<T>, c: seq<T>)
    ensures a + (b + c) == (a + b) + c
  {
  }

  lemma Unrolled(c: Contract, t: Task, replies: seq<Reply>, reply: Reply)
    requires TaskOk(t)
    ensures Run(c, t, replies + [reply]) == Advance(c, t, Run(c, t, replies), reply)
    ensures LogAfter(c, t, replies + [reply]) == LogAfter(c, t, replies) + CallLogAt(c, t, replies)
  {
    hide Advance, CallLog, CallOf, TaskOk;
    var all := replies + [reply];
    assert all[..|all| - 1] == replies && all[|all| - 1] == reply;
  }

  lemma CallLogParts(call: Call, begun: bool)
    ensures CallLog(call, begun) == AskEvents(Before(call, begun)) + (AskEvents(Granting(call)) + [Sent(call)])
  {
    assert Asks(call, begun) == Before(call, begun) + Granting(call);
  }
}
