/** The Chat Completions form of the agent's history: its sender-side validator, the projection of answers
    and tool results, and the closure of the history under both. */
module OpenAi {
  import opened Wrappers
  import opened ModelJson

  // ----- requests --------------------------------------------------------------------------

  datatype Call = Call(id: string, kind: string, name: string, arguments: string)

  datatype Message = Message(role: string, content: Raw, calls: seq<Call>, callId: string)

  datatype Tool = Tool(name: string, description: string, parameters: Json)

  datatype Request = Request(messages: seq<Message>, tools: seq<Tool>, maxCompletionTokens: int)

  function NewRequest(instructions: string, input: string, tools: seq<Tool>, maxTokens: int): Request {
    Request([Message("system", Some(Text(instructions)), [], ""), Message("user", Some(Text(input)), [], "")],
            tools, maxTokens)
  }

  function CallJson(c: Call): Json {
    Object(map["id" := Text(c.id), "type" := Text(c.kind),
               "function" := Object(map["name" := Text(c.name), "arguments" := Text(c.arguments)])])
  }

  function MessageJson(m: Message): Json {
    Object(map["role" := Text(m.role)]
           + (if m.content.Some? then map["content" := m.content.value] else map[])
           + (if m.calls == [] then map[] else map["tool_calls" := List(Mapped(CallJson, m.calls))])
           + (if m.callId == "" then map[] else map["tool_call_id" := Text(m.callId)]))
  }

  function ToolJson(t: Tool): Json {
    Object(map["type" := Text("function"),
               "function" := Object(map["name" := Text(t.name), "parameters" := t.parameters]
                                    + (if t.description == "" then map[] else map["description" := Text(t.description)]))])
  }

  function RequestJson(r: Request): Json {
    Object(map["messages" := List(Mapped(MessageJson, r.messages)), "max_completion_tokens" := Num(r.maxCompletionTokens)]
           + (if r.tools == [] then map[] else map["tools" := List(Mapped(ToolJson, r.tools))]))
  }

  // ----- the validator ---------------------------------------------------------------------

  predicate ValidCall(call: Json) {
    && call.Object?
    && var c := call.members;
       && Only(c, ["id", "type", "function"])
       && Str(Get(c, "id")) != "" && Str(Get(c, "type")) == "function"
       && "function" in c && c["function"].Object?
       && var fn := c["function"].members;
          && Only(fn, ["name", "arguments"])
          && Str(Get(fn, "name")) != "" && "arguments" in fn && fn["arguments"].Text?
  }

  predicate ValidRole(m: map<string, Json>) {
    var role := Str(Get(m, "role"));
    || role == "system" || role == "user" || role == "assistant"
    || (role == "tool" && Str(Get(m, "tool_call_id")) != "")
  }

  /** `validateMessage`. */
  predicate ValidMessage(message: Json) {
    && message.Object?
    && var m := message.members;
       && Only(m, ["role", "content", "tool_calls", "tool_call_id"])
       && ValidRole(m)
       && ("content" in m ==> m["content"].Null? || m["content"].Text?)
       && ("tool_calls" in m ==>
             m["tool_calls"].List? && forall i | 0 <= i < |m["tool_calls"].items| :: ValidCall(m["tool_calls"].items[i]))
  }

  predicate ValidTool(tool: Json) {
    && tool.Object?
    && var t := tool.members;
       && Only(t, ["type", "function"]) && Str(Get(t, "type")) == "function"
       && "function" in t && t["function"].Object?
       && var fn := t["function"].members;
          && Only(fn, ["name", "description", "parameters"])
          && Str(Get(fn, "name")) != "" && "parameters" in fn && fn["parameters"].Object?
  }

  /** `Validate`, the last check before a request leaves. */
  predicate Validate(body: Json) {
    && body.Object?
    && var m := body.members;
       && Only(m, ["messages", "tools", "max_completion_tokens"])
       && "messages" in m && m["messages"].List? && m["messages"].items != []
       && (forall i | 0 <= i < |m["messages"].items| :: ValidMessage(m["messages"].items[i]))
       && ("tools" in m ==>
             m["tools"].List? && forall i | 0 <= i < |m["tools"].items| :: ValidTool(m["tools"].items[i]))
  }

  predicate CallSendable(c: Call) {
    c.id != "" && c.kind == "function" && c.name != ""
  }

  predicate RoleSendable(m: Message) {
    m.role == "system" || m.role == "user" || m.role == "assistant" || (m.role == "tool" && m.callId != "")
  }

  predicate MessageSendable(m: Message) {
    && RoleSendable(m)
    && (m.content.Some? ==> m.content.value.Null? || m.content.value.Text?)
    && forall i | 0 <= i < |m.calls| :: CallSendable(m.calls[i])
  }

  predicate ToolSendable(t: Tool) {
    t.name != "" && t.parameters.Object?
  }

  /** The state of a request that the validator accepts, said of the request itself. */
  predicate Sendable(r: Request) {
    && r.messages != []
    && (forall i | 0 <= i < |r.messages| :: MessageSendable(r.messages[i]))
    && (forall i | 0 <= i < |r.tools| :: ToolSendable(r.tools[i]))
  }

  lemma CallValid(c: Call)
    ensures ValidCall(CallJson(c)) <==> CallSendable(c)
  {
    hide Only;
    var fields, inner := ["id", "type", "function"], ["name", "arguments"];
    assert fields[0] == "id" && fields[1] == "type" && fields[2] == "function";
    assert inner[0] == "name" && inner[1] == "arguments";
    OnlyOf(CallJson(c).members, fields);
    OnlyOf(CallJson(c).members["function"].members, inner);
  }

  lemma ToolValid(t: Tool)
    ensures ValidTool(ToolJson(t)) <==> ToolSendable(t)
  {
    hide Only;
    var fields, inner := ["type", "function"], ["name", "description", "parameters"];
    assert fields[0] == "type" && fields[1] == "function";
    assert inner[0] == "name" && inner[1] == "description" && inner[2] == "parameters";
    OnlyOf(ToolJson(t).members, fields);
    OnlyOf(ToolJson(t).members["function"].members, inner);
  }

  lemma MessageMembers(m: Message)
    ensures var j := MessageJson(m).members;
            && Str(Get(j, "role")) == m.role && Str(Get(j, "tool_call_id")) == m.callId
            && ("content" in j <==> m.content.Some?) && ("content" in j ==> j["content"] == m.content.value)
            && ("tool_calls" in j <==> m.calls != [])
            && ("tool_calls" in j ==> j["tool_calls"] == List(Mapped(CallJson, m.calls)))
  {
  }

  lemma MessageFields(m: Message)
    ensures Only(MessageJson(m).members, ["role", "content", "tool_calls", "tool_call_id"])
  {
    hide Only;
    var fields := ["role", "content", "tool_calls", "tool_call_id"];
    assert fields[0] == "role" && fields[1] == "content" && fields[2] == "tool_calls" && fields[3] == "tool_call_id";
    OnlyOf(MessageJson(m).members, fields);
  }

  lemma MessageValid(m: Message)
    ensures ValidMessage(MessageJson(m)) <==> MessageSendable(m)
  {
    hide Only, ValidCall, CallSendable, CallJson;
    MessageMembers(m);
    MessageFields(m);
    forall i | 0 <= i < |m.calls| ensures ValidCall(Mapped(CallJson, m.calls)[i]) <==> CallSendable(m.calls[i]) {
      CallValid(m.calls[i]);
    }
    assert MessageJson(m).Object?;
    hide MessageJson;
  }

  lemma RequestMembers(r: Request)
    ensures RequestJson(r).Object?
    ensures Mapped(MessageJson, r.messages) == [] <==> r.messages == []
    ensures var m := RequestJson(r).members;
            && Only(m, ["messages", "tools", "max_completion_tokens"])
            && "messages" in m && m["messages"] == List(Mapped(MessageJson, r.messages))
            && ("tools" in m <==> r.tools != [])
            && ("tools" in m ==> m["tools"] == List(Mapped(ToolJson, r.tools)))
  {
    hide Only, MessageJson, ToolJson;
    var fields := ["messages", "tools", "max_completion_tokens"];
    assert fields[0] == "messages" && fields[1] == "tools" && fields[2] == "max_completion_tokens";
    OnlyOf(RequestJson(r).members, fields);
  }

  /** The validator accepts exactly the sendable requests. */
  lemma ValidateIsSendable(r: Request)
    ensures Validate(RequestJson(r)) <==> Sendable(r)
  {
    hide Only, ValidMessage, ValidTool, MessageJson, ToolJson, RequestJson, MessageSendable, ToolSendable;
    RequestMembers(r);
    forall i | 0 <= i < |r.messages|
      ensures ValidMessage(Mapped(MessageJson, r.messages)[i]) <==> MessageSendable(r.messages[i])
    {
      MessageValid(r.messages[i]);
    }
    forall i | 0 <= i < |r.tools| ensures ValidTool(Mapped(ToolJson, r.tools)[i]) <==> ToolSendable(r.tools[i]) {
      ToolValid(r.tools[i]);
    }
  }

  // ----- the vocabulary --------------------------------------------------------------------

  predicate ObjectAt(m: map<string, Json>, name: string) {
    name in m && m[name].Object? && NoBlanks(m[name].members)
  }

  lemma CallNames(c: map<string, Json>)
    requires NoBlanks(c)
    ensures Only(c, ["id", "type", "function"]) <==> c.Keys <= {"id", "type", "function"}
    ensures Only(c, ["name", "arguments"]) <==> c.Keys <= {"name", "arguments"}
    ensures Only(c, ["type", "function"]) <==> c.Keys <= {"type", "function"}
    ensures Only(c, ["name", "description", "parameters"]) <==> c.Keys <= {"name", "description", "parameters"}
  {
    hide Only;
    assert OneWord("id") && OneWord("type") && OneWord("function") && OneWord("name") && OneWord("arguments");
    assert OneWord("description") && OneWord("parameters");
    OnlyWithin(c, ["id", "type", "function"], {"id", "type", "function"});
    OnlyWithin(c, ["name", "arguments"], {"name", "arguments"});
    OnlyWithin(c, ["type", "function"], {"type", "function"});
    OnlyWithin(c, ["name", "description", "parameters"], {"name", "description", "parameters"});
  }

  /** Which calls and tools the validator lets pass, as long as no member has a blank in its name. */
  lemma CallVocabulary(c: map<string, Json>)
    requires NoBlanks(c) && ("function" in c && c["function"].Object? ==> NoBlanks(c["function"].members))
    ensures ValidCall(Object(c)) <==>
              && c.Keys <= {"id", "type", "function"} && Texted(c, "id") && Get(c, "type") == Some(Text("function"))
              && ObjectAt(c, "function")
              && var fn := c["function"].members;
                 fn.Keys <= {"name", "arguments"} && Texted(fn, "name") && "arguments" in fn && fn["arguments"].Text?
  {
    hide Only;
    CallNames(c);
    if ObjectAt(c, "function") {
      CallNames(c["function"].members);
    }
  }

  lemma ToolVocabulary(t: map<string, Json>)
    requires NoBlanks(t) && ("function" in t && t["function"].Object? ==> NoBlanks(t["function"].members))
    ensures ValidTool(Object(t)) <==>
              && t.Keys <= {"type", "function"} && Get(t, "type") == Some(Text("function")) && ObjectAt(t, "function")
              && var fn := t["function"].members;
                 fn.Keys <= {"name", "description", "parameters"} && Texted(fn, "name")
                 && "parameters" in fn && fn["parameters"].Object?
  {
    hide Only;
    CallNames(t);
    if ObjectAt(t, "function") {
      CallNames(t["function"].members);
    }
  }

  /** Which messages: a known role, a text or nothing as content, tool results with their id, and valid calls. */
  lemma MessageVocabulary(m: map<string, Json>)
    requires NoBlanks(m)
    ensures ValidMessage(Object(m)) <==>
              && m.Keys <= {"role", "content", "tool_calls", "tool_call_id"}
              && (Get(m, "role") in {Some(Text("system")), Some(Text("user")), Some(Text("assistant"))}
                  || (Get(m, "role") == Some(Text("tool")) && Texted(m, "tool_call_id")))
              && ("content" in m ==> m["content"].Null? || m["content"].Text?)
              && ("tool_calls" in m ==> m["tool_calls"].List? && forall call | call in m["tool_calls"].items :: ValidCall(call))
  {
    hide Only, ValidCall;
    assert OneWord("role") && OneWord("content") && OneWord("tool_calls") && OneWord("tool_call_id");
    OnlyWithin(m, ["role", "content", "tool_calls", "tool_call_id"], {"role", "content", "tool_calls", "tool_call_id"});
    if "tool_calls" in m && m["tool_calls"].List? {
      var items := m["tool_calls"].items;
      assert (forall call | call in items :: ValidCall(call)) <==> forall i | 0 <= i < |items| :: ValidCall(items[i]);
    }
  }

  /** Which requests: some messages, tools perhaps, the token limit, and nothing unknown beside. */
  lemma RequestVocabulary(m: map<string, Json>)
    requires NoBlanks(m)
    ensures Validate(Object(m)) <==>
              && m.Keys <= {"messages", "tools", "max_completion_tokens"}
              && "messages" in m && m["messages"].List? && m["messages"].items != []
              && (forall message | message in m["messages"].items :: ValidMessage(message))
              && ("tools" in m ==> m["tools"].List? && forall tool | tool in m["tools"].items :: ValidTool(tool))
  {
    hide Only, ValidMessage, ValidTool;
    assert OneWord("messages") && OneWord("tools") && OneWord("max_completion_tokens");
    OnlyWithin(m, ["messages", "tools", "max_completion_tokens"], {"messages", "tools", "max_completion_tokens"});
    if "messages" in m && m["messages"].List? {
      var items := m["messages"].items;
      assert (forall x | x in items :: ValidMessage(x)) <==> forall i | 0 <= i < |items| :: ValidMessage(items[i]);
    }
    if "tools" in m && m["tools"].List? {
      var items := m["tools"].items;
      assert (forall x | x in items :: ValidTool(x)) <==> forall i | 0 <= i < |items| :: ValidTool(items[i]);
    }
  }

  /** What is written of a tool and of a call: its parts, and a description only if there is one. */
  lemma PartsAreWritten(t: Tool, c: Call)
    ensures var j := ToolJson(t).members;
            && Get(j, "type") == Some(Text("function")) && "function" in j && j["function"].Object?
            && var fn := j["function"].members;
               && Get(fn, "name") == Some(Text(t.name)) && Get(fn, "parameters") == Some(t.parameters)
               && Get(fn, "description") == if t.description == "" then None else Some(Text(t.description))
    ensures var j := CallJson(c).members;
            && Get(j, "id") == Some(Text(c.id)) && Get(j, "type") == Some(Text(c.kind))
            && "function" in j && j["function"].Object?
            && Get(j["function"].members, "name") == Some(Text(c.name))
            && Get(j["function"].members, "arguments") == Some(Text(c.arguments))
  {
  }

  // ----- answers ---------------------------------------------------------------------------

  datatype Choice = Choice(message: Raw, finish: string)

  function DecodeChoice(item: Json): Option<Choice> {
    if item.Null? then Some(Choice(None, ""))
    else if !item.Object? then None
    else
      match StringField(item.members, "finish_reason")
      case None => None
      case Some(finish) => Some(Choice(Get(item.members, "message"), finish))
  }

  /** The members of an answer's message that go on; metadata of the provider stays behind. */
  function Projected(m: map<string, Json>): map<string, Json> {
    map name | name in m && (name == "role" || name == "content" || name == "tool_calls") :: m[name]
  }

  function DecodeCall(call: Json): Call
    requires ValidCall(call)
  {
    var c := call.members;
    var fn := c["function"].members;
    Call(Str(Get(c, "id")), Str(Get(c, "type")), Str(Get(fn, "name")), fn["arguments"].text)
  }

  function DecodeMessage(m: map<string, Json>): Message
    requires ValidMessage(Object(m))
  {
    var items := if "tool_calls" in m then m["tool_calls"].items else [];
    Message(Str(Get(m, "role")), Get(m, "content"),
            seq(|items|, i requires 0 <= i < |items| => DecodeCall(items[i])), "")
  }

  /** `ParseResponse`: the first choice, if all of the answer has the right shape. */
  function ParseResponse(raw: Raw): Option<(Message, string)> {
    if raw == None || !raw.value.Object? then None
    else
      var choices := Get(raw.value.members, "choices");
      if choices == None || !choices.value.List? then None
      else
        var items := choices.value.items;
        if items == [] || exists i | 0 <= i < |items| :: DecodeChoice(items[i]) == None then None
        else
          var first := DecodeChoice(items[0]).value;
          if first.message == None || !first.message.value.Object?
             || Str(Get(first.message.value.members, "role")) != "assistant" then None
          else
            var projected := Projected(first.message.value.members);
            if !ValidMessage(Object(projected)) then None
            else Some((DecodeMessage(projected), first.finish))
  }

  /** The shared stop reasons; a filtered answer ends the run. */
  function StopOf(finish: string): string {
    match finish
    case "stop" => "end_turn"
    case "length" => "max_tokens"
    case "tool_calls" => "tool_use"
    case _ => ""
  }

  function CallsOf(message: Message, parse: string -> Raw): seq<ToolCall> {
    seq(|message.calls|, i requires 0 <= i < |message.calls| =>
          ToolCall(message.calls[i].id, message.calls[i].name, parse(message.calls[i].arguments)))
  }

  /** One turn: the history grows by the projected answer; `parse` reads the arguments of a call. */
  function NextTurn(request: Request, answer: Raw, parse: string -> Raw): (Request, Result<Turn, Halt>) {
    match ParseResponse(answer)
    case None => (request, Err(GATEWAY_ERROR))
    case Some((message, finish)) =>
      var grown := request.(messages := request.messages + [message]);
      if finish == "content_filter" then (grown, Err(Halt("limit", "content_filter")))
      else (grown, Ok(Turn(Str(message.content), StopOf(finish), CallsOf(message, parse))))
  }

  /** The first choice of an answer, in the words of the provider: why it ended, and its message. */
  predicate FirstChoice(answer: Raw, finish: string, message: map<string, Json>) {
    && answer.Some? && answer.value.Object?
    && var m := answer.value.members;
       && "choices" in m && m["choices"].List? && m["choices"].items != [] && m["choices"].items[0].Object?
       && var first := m["choices"].items[0].members;
          && "message" in first && first["message"] == Object(message)
          && (if "finish_reason" in first && !first["finish_reason"].Null? then first["finish_reason"] == Text(finish)
              else finish == "")
  }

  /** The text of a message, nothing if it has none. */
  function Said(message: map<string, Json>): string {
    if "content" in message && message["content"].Text? then message["content"].text else ""
  }

  /** The calls are the tool calls of the message, in order: id, name, and the arguments as `parse` reads them. */
  predicate CallsSaid(message: map<string, Json>, calls: seq<ToolCall>, parse: string -> Raw) {
    if "tool_calls" !in message then calls == []
    else
      && message["tool_calls"].List? && |message["tool_calls"].items| == |calls|
      && forall i | 0 <= i < |calls| :: CallSaid(message["tool_calls"].items[i], calls[i], parse)
  }

  predicate CallSaid(item: Json, call: ToolCall, parse: string -> Raw) {
    && item.Object? && "id" in item.members && item.members["id"] == Text(call.id)
    && "function" in item.members && item.members["function"].Object?
    && var fn := item.members["function"].members;
       && "name" in fn && fn["name"] == Text(call.name)
       && "arguments" in fn && fn["arguments"].Text? && call.input == parse(fn["arguments"].text)
  }

  /** The run's words for why a turn has ended. */
  predicate EndsFor(finish: string, stop: string) {
    && (stop == "end_turn" <==> finish == "stop") && (stop == "max_tokens" <==> finish == "length")
    && (stop == "tool_use" <==> finish == "tool_calls")
    && (finish != "stop" && finish != "length" && finish != "tool_calls" ==> stop == "")
  }

  lemma StopOfEnds(finish: string)
    ensures EndsFor(finish, StopOf(finish))
  {
  }

  lemma DecodedCall(item: Json, parse: string -> Raw)
    requires ValidCall(item)
    ensures var c := DecodeCall(item); CallSaid(item, ToolCall(c.id, c.name, parse(c.arguments)), parse)
  {
    hide Only;
  }

  lemma DecodedSays(message: map<string, Json>, parse: string -> Raw)
    requires ValidMessage(Object(Projected(message)))
    ensures Str(DecodeMessage(Projected(message)).content) == Said(message)
    ensures CallsSaid(message, CallsOf(DecodeMessage(Projected(message)), parse), parse)
  {
    hide Only;
    var m := Projected(message);
    assert "content" in m <==> "content" in message;
    assert "tool_calls" in m <==> "tool_calls" in message;
    if "tool_calls" in m {
      var items := m["tool_calls"].items;
      forall i | 0 <= i < |items|
        ensures CallSaid(items[i], CallsOf(DecodeMessage(m), parse)[i], parse)
      {
        assert ValidCall(items[i]);
        DecodedCall(items[i], parse);
      }
    }
  }

  /** A turn is what the first choice of the answer says, and a filtered one ends the run. */
  lemma TurnIsTheAnswer(request: Request, answer: Raw, parse: string -> Raw)
    returns (finish: string, message: map<string, Json>)
    requires NextTurn(request, answer, parse).1.Ok?
    ensures FirstChoice(answer, finish, message) && finish != "content_filter"
    ensures "role" in message && message["role"] == Text("assistant")
    ensures var turn := NextTurn(request, answer, parse).1.value;
            turn.text == Said(message) && EndsFor(finish, turn.stop) && CallsSaid(message, turn.calls, parse)
  {
    hide Only, ValidMessage, DecodeMessage, CallsOf, Projected, StopOf, CallsSaid;
    var first := answer.value.members["choices"].items[0].members;
    finish := DecodeChoice(answer.value.members["choices"].items[0]).value.finish;
    message := first["message"].members;
    StopOfEnds(finish);
    DecodedSays(message, parse);
  }

  /** An answer in its usual shape. */
  function AnswerJson(finish: string, text: string, calls: seq<Call>): Json {
    var message := map["role" := Text("assistant"), "content" := Text(text)]
                   + (if calls == [] then map[] else map["tool_calls" := List(Mapped(CallJson, calls))]);
    Object(map["choices" := List([Object(map["finish_reason" := Text(finish), "message" := Object(message)])])])
  }

  lemma UsualMessage(text: string, calls: seq<Call>)
    requires forall i | 0 <= i < |calls| :: CallSendable(calls[i])
    ensures var m := Message("assistant", Some(Text(text)), calls, "");
            ValidMessage(MessageJson(m)) && DecodeMessage(MessageJson(m).members) == m
            && Projected(MessageJson(m).members) == MessageJson(m).members
  {
    hide Only, ValidCall;
    var m := Message("assistant", Some(Text(text)), calls, "");
    hide CallSendable;
    MessageValid(m);
    forall i | 0 <= i < |calls| ensures ValidCall(CallJson(calls[i])) && DecodeCall(CallJson(calls[i])) == calls[i] {
      CallValid(calls[i]);
    }
  }

  lemma UsualChoice(finish: string, message: map<string, Json>)
    ensures DecodeChoice(Object(map["finish_reason" := Text(finish), "message" := Object(message)]))
         == Some(Choice(Some(Object(message)), finish))
  {
  }

  lemma UsualParse(answer: Json, finish: string, message: map<string, Json>, m: Message)
    requires answer == Object(map["choices" := List([Object(map["finish_reason" := Text(finish), "message" := Object(message)])])])
    requires Str(Get(message, "role")) == "assistant" && ValidMessage(Object(Projected(message)))
    requires DecodeMessage(Projected(message)) == m
    ensures ParseResponse(Some(answer)) == Some((m, finish))
  {
    hide ValidMessage, DecodeMessage, Projected, DecodeChoice;
    UsualChoice(finish, message);
    var items := answer.members["choices"].items;
    assert |items| == 1;
  }

  /** Every answer of the usual shape is taken as it is: its text, its calls, and the reason for its end. */
  lemma UsualAnswer(request: Request, finish: string, text: string, calls: seq<Call>, parse: string -> Raw)
    requires forall i | 0 <= i < |calls| :: CallSendable(calls[i])
    ensures var (grown, turn) := NextTurn(request, Some(AnswerJson(finish, text, calls)), parse);
            && grown == request.(messages := request.messages + [Message("assistant", Some(Text(text)), calls, "")])
            && if finish == "content_filter" then turn == Err(Halt("limit", "content_filter"))
               else turn == Ok(Turn(text, StopOf(finish),
                                    seq(|calls|, i requires 0 <= i < |calls| =>
                                          ToolCall(calls[i].id, calls[i].name, parse(calls[i].arguments)))))
  {
    hide Only, ValidMessage, DecodeMessage, Projected, CallSendable, StopOf, CallJson, ParseResponse, DecodeChoice;
    UsualMessage(text, calls);
    var m := Message("assistant", Some(Text(text)), calls, "");
    var message := map["role" := Text("assistant"), "content" := Text(text)]
                   + (if calls == [] then map[] else map["tool_calls" := List(Mapped(CallJson, calls))]);
    assert MessageJson(m).members == message;
    UsualChoice(finish, message);
    UsualParse(AnswerJson(finish, text, calls), finish, message, m);
    assert CallsOf(m, parse) == seq(|calls|, i requires 0 <= i < |calls| =>
                                      ToolCall(calls[i].id, calls[i].name, parse(calls[i].arguments)));
  }

  // ----- tool results ----------------------------------------------------------------------

  function PartOf(block: map<string, Json>): string {
    if Str(Get(block, "type")) == "text" then Str(Get(block, "text")) else PLACEHOLDER
  }

  function JoinLines(parts: seq<string>): string {
    if parts == [] then "" else if |parts| == 1 then parts[0] else parts[0] + "\n" + JoinLines(parts[1..])
  }

  function PartsOf(d: Decoded, render: Json -> string): seq<string> {
    var all := Mapped(PartOf, d.blocks) + (if d.structured.Some? then [render(d.structured.value)] else []);
    if all == [] then [PLACEHOLDER] else all
  }

  function ResultMessage(id: string, raw: Json, render: Json -> string): Message {
    Message("tool", Some(Text(JoinLines(PartsOf(DecodeResult(raw), render)))), [], id)
  }

  /** `ToolResult`, with the loop of the source. */
  method ToolResult(id: string, raw: Json, render: Json -> string) returns (m: Message)
    ensures m == ResultMessage(id, raw, render)
  {
    hide DecodeResult, JoinLines;
    var result := DecodeResult(raw);
    var parts: seq<string> := [];
    for i := 0 to |result.blocks|
      invariant parts == Mapped(PartOf, result.blocks[..i])
    {
      var block := result.blocks[i];
      if Str(Get(block, "type")) == "text" {
        parts := parts + [Str(Get(block, "text"))];
      } else {
        parts := parts + [PLACEHOLDER];
      }
      MappedAppend(PartOf, result.blocks[..i], block);
      assert result.blocks[..i + 1] == result.blocks[..i] + [block];
    }
    assert result.blocks[..|result.blocks|] == result.blocks && parts + [] == parts;
    if result.structured.Some? {
      parts := parts + [render(result.structured.value)];
    }
    if parts == [] {
      parts := [PLACEHOLDER];
    }
    return Message("tool", Some(Text(JoinLines(parts))), [], id);
  }

  lemma {:induction false} LinesApart(a: seq<string>, b: seq<string>)
    requires a != [] && b != []
    ensures JoinLines(a + b) == JoinLines(a) + "\n" + JoinLines(b)
    decreases |a|
  {
    if |a| == 1 {
      assert a + b == [a[0]] + b && (a + b)[1..] == b;
    } else {
      LinesApart(a[1..], b);
      assert (a + b)[1..] == a[1..] + b;
    }
  }

  /** One part of a result: the text of a text, the fixed text for anything else. */
  predicate PartSaid(item: map<string, Json>, part: string) {
    if Get(item, "type") == Some(Text("text")) then
      part == if "text" in item && item["text"].Text? then item["text"].text else ""
    else part == PLACEHOLDER
  }

  /** What the model reads of a tool's result: every part of it in order, the structured part last, line by line; a result
      without any part leaves the fixed text. */
  lemma ResultSays(
      id: string, raw: Json, items: seq<map<string, Json>>, structured: Raw, isError: bool, render: Json -> string)
    returns (parts: seq<string>)
    requires ProtocolResult(raw, items, structured, isError)
    ensures |parts| == |items| && forall i | 0 <= i < |items| :: PartSaid(items[i], parts[i])
    ensures var all := parts + if structured.Some? then [render(structured.value)] else [];
            ResultMessage(id, raw, render)
            == Message("tool", Some(Text(if all == [] then PLACEHOLDER else JoinLines(all))), [], id)
  {
    ProtocolResultIsRead(raw, items, structured, isError);
    hide ProtocolResult, DecodeResult;
    parts := Mapped(PartOf, items);
    forall i | 0 <= i < |items| ensures PartSaid(items[i], parts[i]) {
      assert parts[i] == PartOf(items[i]);
    }
    assert JoinLines([PLACEHOLDER]) == PLACEHOLDER;
  }

  // ----- the history -----------------------------------------------------------------------

  function IdsIn(calls: seq<Call>): seq<string> {
    seq(|calls|, i requires 0 <= i < |calls| => calls[i].id)
  }

  /** A reader of the history: the tool calls still to be answered, or none at all if an answer was out of order,
      left out or given twice. */
  function Pending(messages: seq<Message>): Option<seq<string>> {
    if messages == [] then Some([])
    else
      match Pending(messages[..|messages| - 1])
      case None => None
      case Some(open) => Answering(open, messages[|messages| - 1])
  }

  function Answering(open: seq<string>, m: Message): Option<seq<string>> {
    if m.role == "tool" then
      (if open != [] && Unique(open) && m.callId == open[0] then Some(open[1..]) else None)
    else if open != [] then None
    else Some(if m.role == "assistant" then IdsIn(m.calls) else [])
  }

  /** A history with all calls answered, acceptable to the validator. */
  predicate Complete(request: Request) {
    Sendable(request) && Pending(request.messages) == Some([])
  }

  lemma PendingAppend(messages: seq<Message>, m: Message)
    ensures Pending(messages + [m])
         == match Pending(messages) case None => None case Some(open) => Answering(open, m)
  {
    assert (messages + [m])[..|messages|] == messages;
  }

  lemma NewRequestOpen(instructions: string, input: string, tools: seq<Tool>, maxTokens: int)
    ensures Pending(NewRequest(instructions, input, tools, maxTokens).messages) == Some([])
  {
    var m := NewRequest(instructions, input, tools, maxTokens).messages;
    assert m == [] + [m[0]] + [m[1]];
    PendingAppend([], m[0]);
    PendingAppend([m[0]], m[1]);
  }

  /** The first request is complete exactly if every tool has a name and a schema that is an object. */
  lemma NewRequestComplete(instructions: string, input: string, tools: seq<Tool>, maxTokens: int)
    ensures Complete(NewRequest(instructions, input, tools, maxTokens))
       <==> forall i | 0 <= i < |tools| :: ToolSendable(tools[i])
  {
    NewRequestOpen(instructions, input, tools, maxTokens);
  }

  lemma ProjectedSendable(m: map<string, Json>)
    requires ValidMessage(Object(m)) && Str(Get(m, "role")) == "assistant"
    ensures MessageSendable(DecodeMessage(m)) && DecodeMessage(m).role == "assistant"
  {
    hide Only, ValidCall, CallSendable, DecodeCall;
    var d := DecodeMessage(m);
    forall i | 0 <= i < |d.calls| ensures CallSendable(d.calls[i]) {
      CallDecoded(m["tool_calls"].items[i]);
    }
  }

  lemma CallDecoded(call: Json)
    requires ValidCall(call)
    ensures CallSendable(DecodeCall(call))
  {
    hide Only;
  }

  lemma TurnGrows(request: Request, answer: Raw, parse: string -> Raw)
    ensures var grown := NextTurn(request, answer, parse).0;
            request.messages <= grown.messages && grown.tools == request.tools
  {
    hide ParseResponse;
  }

  /** A turn that the run goes on with leaves a sendable history whose open calls are the turn's. */
  lemma TurnKeeps(request: Request, answer: Raw, parse: string -> Raw)
    requires Complete(request) && NextTurn(request, answer, parse).1.Ok?
    ensures var (grown, turn) := NextTurn(request, answer, parse);
            && Sendable(grown) && Pending(grown.messages) == Some(CallIds(turn.value.calls))
            && forall i | 0 <= i < |turn.value.calls| :: turn.value.calls[i].id != ""
  {
    hide ValidMessage, Pending, Only, ToolSendable;
    var items := Get(answer.value.members, "choices").value.items;
    var first := DecodeChoice(items[0]).value.message.value.members;
    assert Str(Get(Projected(first), "role")) == Str(Get(first, "role"));
    ProjectedSendable(Projected(first));
    var message := ParseResponse(answer).value.0;
    PendingAppend(request.messages, message);
    assert CallIds(CallsOf(message, parse)) == IdsIn(message.calls);
  }

  function ResultMessages(outcomes: seq<ToolOutcome>, render: Json -> string): seq<Message> {
    seq(|outcomes|, i requires 0 <= i < |outcomes| => ResultMessage(outcomes[i].id, outcomes[i].raw, render))
  }

  lemma {:induction false} ResultsAnswer(messages: seq<Message>, open: seq<string>, outcomes: seq<ToolOutcome>, render: Json -> string)
    requires Pending(messages) == Some(open) && Unique(open)
    requires OutcomeIds(outcomes) <= open
    ensures Pending(messages + ResultMessages(outcomes, render)) == Some(open[|outcomes|..])
    decreases |outcomes|
  {
    hide Pending, ResultMessage, ResultMessages, Unique;
    if outcomes == [] {
      assert ResultMessages(outcomes, render) == [] by { NoMessages(render); }
      assert messages + [] == messages;
    } else {
      var n := |outcomes| - 1;
      assert OutcomeIds(outcomes)[..n] == OutcomeIds(outcomes[..n]);
      ResultsAnswer(messages, open, outcomes[..n], render);
      var before, m := messages + ResultMessages(outcomes[..n], render), ResultMessage(outcomes[n].id, outcomes[n].raw, render);
      LastMessage(outcomes, render);
      assert messages + ResultMessages(outcomes, render) == before + [m];
      assert open[n] == OutcomeIds(outcomes)[n] == outcomes[n].id;
      NextAnswer(before, open, n, m);
    }
  }

  lemma NoMessages(render: Json -> string)
    ensures ResultMessages([], render) == []
  {
  }

  lemma LastMessage(outcomes: seq<ToolOutcome>, render: Json -> string)
    requires outcomes != []
    ensures var n := |outcomes| - 1;
            var m := ResultMessage(outcomes[n].id, outcomes[n].raw, render);
            && ResultMessages(outcomes, render) == ResultMessages(outcomes[..n], render) + [m]
            && m.role == "tool" && m.callId == outcomes[n].id
  {
    hide DecodeResult, PartsOf, JoinLines;
  }

  lemma NextAnswer(messages: seq<Message>, open: seq<string>, n: nat, m: Message)
    requires n < |open| && Unique(open) && Pending(messages) == Some(open[n..])
    requires m.role == "tool" && m.callId == open[n]
    ensures Pending(messages + [m]) == Some(open[n + 1..])
  {
    hide Pending;
    PendingAppend(messages, m);
    assert open[n..][1..] == open[n + 1..] && open[n..][0] == open[n];
  }

  /** Answering exactly the open calls, in order, completes the history again, whatever the tools have said. */
  lemma ResultsKeep(request: Request, outcomes: seq<ToolOutcome>, render: Json -> string)
    requires Sendable(request) && Pending(request.messages) == Some(OutcomeIds(outcomes))
    requires Unique(OutcomeIds(outcomes)) && forall i | 0 <= i < |outcomes| :: outcomes[i].id != ""
    ensures Complete(request.(messages := request.messages + ResultMessages(outcomes, render)))
  {
    hide DecodeResult, PartsOf, JoinLines, Pending, ToolSendable;
    ResultsAnswer(request.messages, OutcomeIds(outcomes), outcomes, render);
    assert OutcomeIds(outcomes)[|outcomes|..] == [];
    var results := ResultMessages(outcomes, render);
    assert forall i | 0 <= i < |results| :: MessageSendable(results[i]);
    hide MessageSendable, ResultMessages;
  }
}
