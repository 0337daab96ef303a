/** The agent's run: list the tools, ask the model, call its tools, send the results back, within limits.
    What the outside does is given in advance, for every step and call. */
module AgentLoop {
  import opened Wrappers
  import opened ModelJson
  import Anthropic
  import OpenAi

  // ----- the gateway -----------------------------------------------------------------------

  /** The answer of the model endpoint; `body` is absent if it is not a single JSON document. */
  datatype HttpReply = NoReply | HttpReply(status: nat, body: Raw)

  datatype Envelope = Envelope(response: Raw, error: Option<Halt>)   // class and detail of the error

  function DecodeEnvelope(body: Json): Option<Envelope> {
    if body.Null? then Some(Envelope(None, None))
    else if !body.Object? then None
    else
      var error := Get(body.members, "error");
      if error == None || error.value.Null? then Some(Envelope(Get(body.members, "response"), None))
      else if !error.value.Object? then None
      else
        match (StringField(error.value.members, "class"), StringField(error.value.members, "detail"))
        case (Some(class_), Some(detail)) => Some(Envelope(Get(body.members, "response"), Some(Halt(class_, detail))))
        case _ => None
  }

  function LimitDetail(detail: string): string {
    if detail == "steps" || detail == "tool_calls" || detail == "wall" || detail == "tokens_in" || detail == "tokens_out"
    then detail else "gateway"
  }

  /** `modelBody`: the one classification of what the endpoint says. */
  function ModelBody(reply: HttpReply): Result<Raw, Halt> {
    if reply.NoReply? || reply.body == None then Err(GATEWAY_ERROR)
    else
      match DecodeEnvelope(reply.body.value)
      case None => Err(GATEWAY_ERROR)
      case Some(envelope) =>
        if reply.status == 401 || reply.status == 403 then Err(Halt("revoked", ""))
        else if envelope.error.Some? then
          match envelope.error.value.end
          case "limit" => Err(Halt("limit", LimitDetail(envelope.error.value.detail)))
          case "cancelled" => Err(Halt("cancelled", ""))
          case "revoked" => Err(Halt("revoked", ""))
          case "provider" => Err(Halt("error", "provider"))
          case "rejected" => Err(REJECTED)
          case _ => Err(GATEWAY_ERROR)
        else if reply.status != 200 then Err(GATEWAY_ERROR)
        else Ok(envelope.response)
  }

  /** A complete answer of the model: status 200, no error, and this response. */
  predicate Delivers(reply: HttpReply, answer: Json) {
    && reply.HttpReply? && reply.status == 200 && reply.body.Some? && reply.body.value.Object?
    && var m := reply.body.value.members;
       ("error" in m ==> m["error"].Null?) && "response" in m && m["response"] == answer
  }

  lemma ResponseIsDelivered(reply: HttpReply)
    ensures ModelBody(reply).Ok? && ModelBody(reply).value.Some? ==> Delivers(reply, ModelBody(reply).value.value)
  {
  }

  lemma DeliveredIsResponse(reply: HttpReply, answer: Json)
    requires Delivers(reply, answer)
    ensures ModelBody(reply) == Ok(Some(answer))
  {
  }

  /** An error in the envelope, with its class and detail. */
  predicate Complains(reply: HttpReply, class_: string, detail: string) {
    && reply.HttpReply? && reply.body.Some? && reply.body.value.Object?
    && var m := reply.body.value.members;
       && "error" in m && m["error"].Object?
       && Get(m["error"].members, "class") == Some(Text(class_)) && Get(m["error"].members, "detail") == Some(Text(detail))
  }

  /** How a run ends when no answer comes: a refused token first, then the class of the error, and for a limit the few
      details that are known; everything else is a failure of the gateway. */
  lemma NoAnswerEnds(reply: HttpReply, class_: string, detail: string)
    ensures reply.NoReply? ==> ModelBody(reply) == Err(Halt("error", "gateway"))
    ensures reply.HttpReply? && reply.body == None ==> ModelBody(reply) == Err(Halt("error", "gateway"))
    ensures reply.HttpReply? && reply.body == Some(Object(map[])) && reply.status == 401 ==>
              ModelBody(reply) == Err(Halt("revoked", ""))
    ensures reply.HttpReply? && reply.body == Some(Object(map[])) && reply.status == 403 ==>
              ModelBody(reply) == Err(Halt("revoked", ""))
    ensures reply.HttpReply? && reply.body == Some(Object(map[])) && reply.status !in {200, 401, 403} ==>
              ModelBody(reply) == Err(Halt("error", "gateway"))
    ensures Complains(reply, class_, detail) ==>
              ModelBody(reply)
              == if reply.status == 401 || reply.status == 403 then Err(Halt("revoked", ""))
                 else if class_ == "limit" then
                   Err(Halt("limit", if detail in ["steps", "tool_calls", "wall", "tokens_in", "tokens_out"] then detail
                                     else "gateway"))
                 else if class_ == "cancelled" || class_ == "revoked" then Err(Halt(class_, ""))
                 else if class_ == "provider" || class_ == "rejected" then Err(Halt("error", class_))
                 else Err(Halt("error", "gateway"))
  {
  }

  // ----- the conversation ------------------------------------------------------------------

  datatype Arguments = Arguments(
    openAi: bool, instructions: string, input: string, steps: nat, toolCalls: nat, tokensOut: nat)

  datatype Tool = Tool(name: string, description: string, schema: Json)

  /** The wire history in one of the two forms. */
  datatype Wire = Messages(a: Anthropic.Request) | Completions(o: OpenAi.Request)

  /** How text and JSON values turn into each other. */
  datatype Codec = Codec(parse: string -> Raw, render: Json -> string)

  function ForMessages(t: Tool): Anthropic.Tool {
    Anthropic.Tool(t.name, t.description, t.schema, false)
  }

  function ForCompletions(t: Tool): OpenAi.Tool {
    OpenAi.Tool(t.name, t.description, t.schema)
  }

  function Started(a: Arguments, tools: seq<Tool>): Wire {
    var tokens := if a.tokensOut < 1024 then a.tokensOut else 1024;
    if a.openAi then Completions(OpenAi.NewRequest(a.instructions, a.input, Mapped(ForCompletions, tools), tokens))
    else Messages(Anthropic.NewRequest(a.instructions, a.input, Mapped(ForMessages, tools), tokens))
  }

  /** The form's own validator on the form's own bytes. */
  predicate Passes(wire: Wire) {
    match wire
    case Messages(a) => Anthropic.Validate(Anthropic.RequestJson(a))
    case Completions(o) => OpenAi.Validate(OpenAi.RequestJson(o))
  }

  /** The tool calls a reader of the history finds unanswered. */
  function Open(wire: Wire): Option<seq<string>> {
    match wire
    case Messages(a) => Anthropic.Pending(a.messages)
    case Completions(o) => OpenAi.Pending(o.messages)
  }

  predicate Complete(wire: Wire) {
    Passes(wire) && Open(wire) == Some([])
  }

  /** Later requests repeat the earlier ones and add to them. */
  predicate Extends(before: Wire, after: Wire) {
    match (before, after)
    case (Messages(a), Messages(b)) => a.messages <= b.messages && b.system == a.system && b.tools == a.tools
    case (Completions(a), Completions(b)) => a.messages <= b.messages && b.tools == a.tools
    case _ => false
  }

  function Exchanged(wire: Wire, reply: HttpReply, codec: Codec): (Wire, Result<Turn, Halt>) {
    if !Passes(wire) then (wire, Err(REJECTED))
    else
      match ModelBody(reply)
      case Err(halt) => (wire, Err(halt))
      case Ok(answer) =>
        match wire
        case Messages(a) => var (grown, turn) := Anthropic.NextTurn(a, answer); (Messages(grown), turn)
        case Completions(o) => var (grown, turn) := OpenAi.NextTurn(o, answer, codec.parse); (Completions(grown), turn)
  }

  function Appended(wire: Wire, outcomes: seq<ToolOutcome>, codec: Codec): Wire {
    match wire
    case Messages(a) => Messages(a.(messages := a.messages + [Anthropic.ResultsMessage(outcomes, codec.render)]))
    case Completions(o) => Completions(o.(messages := o.messages + OpenAi.ResultMessages(outcomes, codec.render)))
  }

  /** The model's last word: a final answer without calls, and its text. */
  ghost predicate LastWordSaid(openAi: bool, answer: Json, text: string) {
    if openAi then
      exists message ::
        && OpenAi.FirstChoice(Some(answer), "stop", message) && text == OpenAi.Said(message)
        && ("tool_calls" in message ==> message["tool_calls"] == List([]))
    else
      exists items :: Anthropic.AnswerSays(Some(answer), "end_turn", items) && text == Anthropic.Said(items)
                      && Anthropic.Wanted(items) == []
  }

  /** The model was cut off at its token limit. */
  ghost predicate CutOffSaid(openAi: bool, answer: Json) {
    if openAi then exists message :: OpenAi.FirstChoice(Some(answer), "length", message)
    else exists items :: Anthropic.AnswerSays(Some(answer), "max_tokens", items)
  }

  /** The model asks for tools: it says so, and there are calls. */
  ghost predicate ToolsAsked(openAi: bool, answer: Json) {
    if openAi then
      exists message ::
        && OpenAi.FirstChoice(Some(answer), "tool_calls", message)
        && "tool_calls" in message && message["tool_calls"] != List([])
    else exists items :: Anthropic.AnswerSays(Some(answer), "tool_use", items) && Anthropic.Wanted(items) != []
  }

  /** What a turn says is what the answer says: whether it is the model's last word, whether it was cut off, and whether
      it asks for tools. */
  ghost predicate Faithful(openAi: bool, answer: Json, turn: Turn) {
    && (turn.stop == "end_turn" && turn.calls == [] <==> LastWordSaid(openAi, answer, turn.text))
    && (turn.stop == "max_tokens" <==> CutOffSaid(openAi, answer))
    && (turn.stop == "tool_use" && turn.calls != [] <==> ToolsAsked(openAi, answer))
  }

  /** A turn of either form comes from a complete answer and says what that says. */
  lemma TurnIsDelivered(wire: Wire, reply: HttpReply, codec: Codec) returns (answer: Json)
    requires Exchanged(wire, reply, codec).1.Ok?
    ensures Delivers(reply, answer)
    ensures Faithful(wire.Completions?, answer, Exchanged(wire, reply, codec).1.value)
  {
    hide Passes, ModelBody, OpenAi.NextTurn, Anthropic.NextTurn, Faithful;
    ResponseIsDelivered(reply);
    var body := ModelBody(reply).value;
    match wire {
      case Messages(a) =>
        answer := MessageTurnSaid(a, body);
      case Completions(o) =>
        answer := CompletionTurnSaid(o, body, codec.parse);
    }
  }

  lemma MessageTurnSaid(a: Anthropic.Request, body: Raw) returns (answer: Json)
    requires Anthropic.NextTurn(a, body).1.Ok?
    ensures body == Some(answer)
    ensures Faithful(false, answer, Anthropic.NextTurn(a, body).1.value)
  {
    hide Anthropic.NextTurn, Anthropic.Said, Anthropic.Wanted, Anthropic.AnswerSays;
    var turn := Anthropic.NextTurn(a, body).1.value;
    var items := Anthropic.TurnIsTheAnswer(a, body);
    SomeAnswer(body, turn.stop, items);
    answer := body.value;
    forall stop, other ensures Anthropic.AnswerSays(Some(answer), stop, other) ==> stop == turn.stop && other == items {
      OneAnswer(answer, turn.stop, items, stop, other);
    }
  }

  lemma SomeAnswer(body: Raw, stop: string, items: seq<Json>)
    requires Anthropic.AnswerSays(body, stop, items)
    ensures body.Some?
  {
  }

  lemma OneAnswer(answer: Json, stop: string, items: seq<Json>, otherStop: string, other: seq<Json>)
    requires Anthropic.AnswerSays(Some(answer), stop, items)
    ensures Anthropic.AnswerSays(Some(answer), otherStop, other) ==> otherStop == stop && other == items
  {
  }

  lemma CompletionTurnSaid(o: OpenAi.Request, body: Raw, parse: string -> Raw) returns (answer: Json)
    requires OpenAi.NextTurn(o, body, parse).1.Ok?
    ensures body == Some(answer)
    ensures Faithful(true, answer, OpenAi.NextTurn(o, body, parse).1.value)
  {
    hide OpenAi.NextTurn, OpenAi.Said, OpenAi.FirstChoice, OpenAi.CallSaid;
    var turn := OpenAi.NextTurn(o, body, parse).1.value;
    var finish, message := OpenAi.TurnIsTheAnswer(o, body, parse);
    SomeChoice(body, finish, message);
    answer := body.value;
    forall end, other ensures OpenAi.FirstChoice(Some(answer), end, other) ==> end == finish && other == message {
      OneChoice(answer, finish, message, end, other);
    }
    if "tool_calls" in message {
      assert message["tool_calls"].items == [] <==> turn.calls == [];
    }
  }

  lemma SomeChoice(body: Raw, finish: string, message: map<string, Json>)
    requires OpenAi.FirstChoice(body, finish, message)
    ensures body.Some?
  {
  }

  lemma OneChoice(
      answer: Json, finish: string, message: map<string, Json>, otherFinish: string, other: map<string, Json>)
    requires OpenAi.FirstChoice(Some(answer), finish, message)
    ensures OpenAi.FirstChoice(Some(answer), otherFinish, other) ==> otherFinish == finish && other == message
  {
  }

  /** The first request says what was asked: the instructions, the input, every tool with its schema, and no more tokens
      than allowed. */
  lemma FirstRequestSays(a: Arguments, tools: seq<Tool>)
    ensures var tokens := if a.tokensOut < 1024 then a.tokensOut else 1024;
            match Started(a, tools)
            case Messages(r) =>
              && !a.openAi && r.maxTokens == tokens && r.messages == [Anthropic.Message("user", Some(Text(a.input)))]
              && r.system.List? && |r.system.items| == 1 && r.system.items[0].Object?
              && Get(r.system.items[0].members, "text") == Some(Text(a.instructions))
              && |r.tools| == |tools|
              && forall i | 0 <= i < |tools| ::
                   && r.tools[i].name == tools[i].name && r.tools[i].description == tools[i].description
                   && r.tools[i].schema == tools[i].schema && (r.tools[i].cached <==> i == |tools| - 1)
            case Completions(r) =>
              && a.openAi && r.maxCompletionTokens == tokens
              && r.messages == [OpenAi.Message("system", Some(Text(a.instructions)), [], ""),
                                OpenAi.Message("user", Some(Text(a.input)), [], "")]
              && |r.tools| == |tools|
              && forall i | 0 <= i < |tools| ::
                   r.tools[i] == OpenAi.Tool(tools[i].name, tools[i].description, tools[i].schema)
  {
    forall i | 0 <= i < |tools|
      ensures Mapped(ForMessages, tools)[i] == Anthropic.Tool(tools[i].name, tools[i].description, tools[i].schema, false)
      ensures Mapped(ForCompletions, tools)[i] == OpenAi.Tool(tools[i].name, tools[i].description, tools[i].schema)
    {
      assert Mapped(ForMessages, tools)[i] == ForMessages(tools[i]);
      assert Mapped(ForCompletions, tools)[i] == ForCompletions(tools[i]);
    }
  }

  class Conversation {
    var wire: Wire
    const codec: Codec

    constructor (a: Arguments, tools: seq<Tool>, codec: Codec)
      ensures wire == Started(a, tools) && this.codec == codec
    {
      wire, this.codec := Started(a, tools), codec;
    }

    /** `next`: validate, send, decode, and keep the answer in the history. */
    method Next(reply: HttpReply) returns (turn: Result<Turn, Halt>)
      modifies this
      ensures (wire, turn) == Exchanged(old(wire), reply, codec)
    {
      if !Passes(wire) {
        return Err(REJECTED);
      }
      var answer := ModelBody(reply);
      if answer.Err? {
        return Err(answer.error);
      }
      match wire {
        case Messages(a) =>
          var (grown, t) := Anthropic.NextTurn(a, answer.value);
          wire := Messages(grown);
          return t;
        case Completions(o) =>
          var (grown, t) := OpenAi.NextTurn(o, answer.value, codec.parse);
          wire := Completions(grown);
          return t;
      }
    }

    /** `appendResults`: one message with all results, or one message for each. */
    method AppendResults(outcomes: seq<ToolOutcome>)
      modifies this
      ensures wire == Appended(old(wire), outcomes, codec)
    {
      match wire {
        case Messages(a) =>
          var blocks := ResultBlocks(outcomes, codec.render);
          wire := Messages(a.(messages := a.messages + [Anthropic.Message("user", Some(List(blocks)))]));
        case Completions(o) =>
          var messages := ToolMessages(outcomes, codec.render);
          wire := Completions(o.(messages := o.messages + messages));
      }
    }
  }

  /** One block for each result. */
  method ResultBlocks(outcomes: seq<ToolOutcome>, render: Json -> string) returns (blocks: seq<Json>)
    ensures Anthropic.Message("user", Some(List(blocks))) == Anthropic.ResultsMessage(outcomes, render)
  {
    hide Anthropic.ResultJson;
    blocks := [];
    for i := 0 to |outcomes|
      invariant blocks == seq(i, k requires 0 <= k < i => Anthropic.ResultJson(outcomes[k].id, outcomes[k].raw, render))
    {
      var block := Anthropic.ToolResult(outcomes[i].id, outcomes[i].raw, render);
      blocks := blocks + [block];
    }
  }

  /** One message for each result. */
  method ToolMessages(outcomes: seq<ToolOutcome>, render: Json -> string) returns (messages: seq<OpenAi.Message>)
    ensures messages == OpenAi.ResultMessages(outcomes, render)
  {
    messages := [];
    for i := 0 to |outcomes|
      invariant messages == OpenAi.ResultMessages(outcomes[..i], render)
    {
      var m := OpenAi.ToolResult(outcomes[i].id, outcomes[i].raw, render);
      assert OpenAi.ResultMessages(outcomes[..i + 1], render) == OpenAi.ResultMessages(outcomes[..i], render) + [m];
      messages := messages + [m];
    }
    assert outcomes[..|outcomes|] == outcomes;
  }

  // ----- the history stays complete --------------------------------------------------------

  predicate SchemasAreObjects(tools: seq<Tool>) {
    forall i | 0 <= i < |tools| :: tools[i].schema.Object?
  }

  predicate Named(tools: seq<Tool>) {
    forall i | 0 <= i < |tools| :: tools[i].name != ""
  }

  /** The first request passes its own validator, in the Messages form always, in the Completions form exactly if
      every tool schema is an object. */
  lemma StartIsComplete(a: Arguments, tools: seq<Tool>)
    requires Named(tools)
    ensures Open(Started(a, tools)) == Some([])
    ensures Passes(Started(a, tools)) <==> !a.openAi || SchemasAreObjects(tools)
  {
    hide Anthropic.Validate, Anthropic.RequestJson, Anthropic.Pending, Anthropic.Sendable;
    hide OpenAi.Validate, OpenAi.RequestJson, OpenAi.Pending, OpenAi.Sendable;
    var tokens := if a.tokensOut < 1024 then a.tokensOut else 1024;
    if a.openAi {
      var list := Mapped(ForCompletions, tools);
      OpenAi.NewRequestOpen(a.instructions, a.input, list, tokens);
      OpenAi.NewRequestComplete(a.instructions, a.input, list, tokens);
      OpenAi.ValidateIsSendable(OpenAi.NewRequest(a.instructions, a.input, list, tokens));
      forall i | 0 <= i < |tools| ensures OpenAi.ToolSendable(list[i]) <==> tools[i].schema.Object? {
        assert list[i] == ForCompletions(tools[i]) && tools[i].name != "";
      }
    } else {
      var list := Mapped(ForMessages, tools);
      forall i | 0 <= i < |tools| ensures list[i].name != "" {
        assert list[i] == ForMessages(tools[i]) && tools[i].name != "";
      }
      Anthropic.NewRequestComplete(a.instructions, a.input, list, tokens);
      Anthropic.ValidateIsSendable(Anthropic.NewRequest(a.instructions, a.input, list, tokens));
    }
  }

  lemma TurnKeeps(wire: Wire, reply: HttpReply, codec: Codec)
    requires Complete(wire) && Exchanged(wire, reply, codec).1.Ok?
    ensures var (grown, turn) := Exchanged(wire, reply, codec);
            && Passes(grown) && Open(grown) == Some(CallIds(turn.value.calls)) && Extends(wire, grown)
            && forall i | 0 <= i < |turn.value.calls| :: turn.value.calls[i].id != ""
  {
    hide Anthropic.Validate, Anthropic.RequestJson, Anthropic.Pending, Anthropic.Sendable;
    hide OpenAi.Validate, OpenAi.RequestJson, OpenAi.Pending, OpenAi.Sendable;
    hide ModelBody, Unique, Anthropic.NextTurn, OpenAi.NextTurn;
    var answer := ModelBody(reply).value;
    match wire {
      case Messages(a) =>
        Anthropic.ValidateIsSendable(a);
        Anthropic.TurnKeeps(a, answer);
        Anthropic.TurnGrows(a, answer);
        Anthropic.ValidateIsSendable(Anthropic.NextTurn(a, answer).0);
      case Completions(o) =>
        OpenAi.ValidateIsSendable(o);
        OpenAi.TurnKeeps(o, answer, codec.parse);
        OpenAi.TurnGrows(o, answer, codec.parse);
        OpenAi.ValidateIsSendable(OpenAi.NextTurn(o, answer, codec.parse).0);
    }
  }

  lemma ResultsKeep(wire: Wire, outcomes: seq<ToolOutcome>, codec: Codec)
    requires Passes(wire) && Open(wire) == Some(OutcomeIds(outcomes))
    requires Unique(OutcomeIds(outcomes)) && forall i | 0 <= i < |outcomes| :: outcomes[i].id != ""
    ensures Complete(Appended(wire, outcomes, codec)) && Extends(wire, Appended(wire, outcomes, codec))
  {
    hide Anthropic.Validate, Anthropic.RequestJson, Anthropic.Pending, Anthropic.Sendable;
    hide OpenAi.Validate, OpenAi.RequestJson, OpenAi.Pending, OpenAi.Sendable;
    match wire {
      case Messages(a) =>
        Anthropic.ValidateIsSendable(a);
        Anthropic.ResultsKeep(a, outcomes, codec.render);
        Anthropic.ValidateIsSendable(Appended(wire, outcomes, codec).a);
      case Completions(o) =>
        OpenAi.ValidateIsSendable(o);
        OpenAi.ResultsKeep(o, outcomes, codec.render);
        OpenAi.ValidateIsSendable(Appended(wire, outcomes, codec).o);
    }
  }
}
