/** The Messages form of the agent's history: its sender-side validator, the projection of tool results into
    its vocabulary, and the closure of the history under both. */
module Anthropic {
  import opened Wrappers
  import opened ModelJson

  // ----- content blocks --------------------------------------------------------------------

  datatype Kind = TextKind | ThinkingKind | RedactedKind | ToolUseKind | ToolResultKind | MediaKind(image: bool) | OtherKind

  function KindOf(block: map<string, Json>): Kind {
    match Str(Get(block, "type"))
    case "text" => TextKind
    case "thinking" => ThinkingKind
    case "redacted_thinking" => RedactedKind
    case "tool_use" => ToolUseKind
    case "tool_result" => ToolResultKind
    case "image" => MediaKind(true)
    case "document" => MediaKind(false)
    case _ => OtherKind
  }

  function FieldsOf(kind: Kind): seq<string> {
    match kind
    case TextKind => ["type", "text", "cache_control"]
    case ThinkingKind => ["type", "thinking", "signature"]
    case RedactedKind => ["type", "data"]
    case ToolUseKind => ["type", "id", "name", "input", "caller"]
    case ToolResultKind => ["type", "tool_use_id", "content", "is_error", "cache_control"]
    case MediaKind(_) => ["type", "source", "cache_control", "title", "context"]
    case OtherKind => []
  }

  predicate InAlphabet(c: char) {
    'A' <= c <= 'Z' || 'a' <= c <= 'z' || '0' <= c <= '9' || c == '+' || c == '/'
  }

  /** Line breaks are skipped by the decoder. */
  function WithoutBreaks(data: string): string {
    if data == "" then ""
    else (if data[0] == '\n' || data[0] == '\r' then "" else [data[0]]) + WithoutBreaks(data[1..])
  }

  function Padding(data: string): nat {
    if data != "" && data[|data| - 1] == '=' then
      (if |data| > 1 && data[|data| - 2] == '=' then 2 else 1)
    else 0
  }

  predicate IsBase64(data: string) {
    var kept := WithoutBreaks(data);
    |kept| % 4 == 0 && forall i | 0 <= i < |kept| - Padding(kept) :: InAlphabet(kept[i])
  }

  predicate ImageType(media: string) {
    media == "image/png" || media == "image/jpeg" || media == "image/gif" || media == "image/webp"
  }

  /** An embedded file, and for an image one of the four known types. */
  predicate ValidSource(source: Raw, image: bool) {
    && source.Some? && source.value.Object?
    && var m := source.value.members;
       && Only(m, ["type", "media_type", "data"])
       && Str(Get(m, "type")) == "base64" && Str(Get(m, "media_type")) != ""
       && (image ==> ImageType(Str(Get(m, "media_type"))))
       && IsBase64(Str(Get(m, "data"))) && Str(Get(m, "data")) != ""
  }

  predicate DirectCaller(caller: Json) {
    caller.Object? && Only(caller.members, ["type"]) && Str(Get(caller.members, "type")) == "direct"
  }

  /** `ValidateContent`. */
  predicate ValidContent(raw: Raw) {
    raw.Some? && ValidValue(raw.value)
  }

  predicate ValidValue(content: Json) {
    match content
    case Null => true
    case Text(_) => true
    case List(items) => forall i | 0 <= i < |items| :: ValidBlock(items[i])
    case _ => false
  }

  /** One block; the content of a tool result is checked like the content of a message. */
  predicate ValidBlock(item: Json) {
    && item.Object?
    && var block := item.members;
       && (match KindOf(block)
           case TextKind => "text" in block
           case ThinkingKind => true
           case RedactedKind => true
           case ToolUseKind =>
             && Str(Get(block, "id")) != "" && Str(Get(block, "name")) != ""
             && "input" in block && block["input"].Object?
             && ("caller" in block ==> DirectCaller(block["caller"]))
           case ToolResultKind =>
             Str(Get(block, "tool_use_id")) != "" && "content" in block && ValidValue(block["content"])
           case MediaKind(image) => ValidSource(Get(block, "source"), image)
           case OtherKind => false)
       && Only(block, FieldsOf(KindOf(block)))
  }

  /** A thinking block whose second member is named by two allowed names at once. */
  const BLANK_NAMED: Json := Object(map["type" := Text("thinking"), "thinking signature" := Num(0)])

  /** The validator accepts a member that the block may not have. */
  lemma BlankNamesPass()
    ensures ValidContent(Some(List([BLANK_NAMED]))) && "thinking signature" !in FieldsOf(KindOf(BLANK_NAMED.members))
  {
    hide Only;
    assert KindOf(BLANK_NAMED.members) == ThinkingKind;
    assert Only(BLANK_NAMED.members, FieldsOf(ThinkingKind)) by { BlankNamesListed(BLANK_NAMED.members); }
    assert "thinking signature"[8] == ' ';
    assert ValidBlock(BLANK_NAMED);
  }

  lemma BlankNamesListed(members: map<string, Json>)
    requires forall name | name in members :: name == "type" || name == "thinking signature"
    ensures Only(members, ["type", "thinking", "signature"])
  {
    hide Listed, Only;
    var names := ["type", "thinking", "signature"];
    assert OneWord("type") && OneWord("thinking") && OneWord("signature");
    assert names[0..1] == ["type"] && names[1..3] == ["thinking", "signature"] && names[1..3][1..] == ["signature"];
    assert IsRun(names, "type", 0, 1) && IsRun(names, "thinking signature", 1, 3);
    ListedIsARun(names, "type");
    ListedIsARun(names, "thinking signature");
    OnlyListed(members, names);
  }

  // ----- requests --------------------------------------------------------------------------

  datatype Message = Message(role: string, content: Raw)

  datatype Tool = Tool(name: string, description: string, schema: Json, cached: bool)

  datatype Request = Request(messages: seq<Message>, system: Json, tools: seq<Tool>, maxTokens: int)

  const EPHEMERAL: Json := Object(map["type" := Text("ephemeral")])

  function TextBlock(text: string): Json {
    Object(map["type" := Text("text"), "text" := Text(text)])
  }

  /** `NewRequest`: the input as the first message; the system and the last tool end a cached prefix. */
  function NewRequest(instructions: string, input: string, tools: seq<Tool>, maxTokens: int): Request {
    var system := List([Object(map["type" := Text("text"), "text" := Text(instructions), "cache_control" := EPHEMERAL])]);
    var marked := if tools == [] then [] else tools[|tools| - 1 := tools[|tools| - 1].(cached := true)];
    Request([Message("user", Some(Text(input)))], system, marked, maxTokens)
  }

  function MessageJson(m: Message): Json {
    Object(map["role" := Text(m.role), "content" := if m.content.Some? then m.content.value else Null])
  }

  function ToolJson(t: Tool): Json {
    Object(map["name" := Text(t.name), "input_schema" := t.schema]
           + (if t.description == "" then map[] else map["description" := Text(t.description)])
           + (if t.cached then map["cache_control" := EPHEMERAL] else map[]))
  }

  /** What `json.Marshal` makes of a request. */
  function RequestJson(r: Request): Json {
    Object(map["messages" := List(Mapped(MessageJson, r.messages)), "system" := r.system, "max_tokens" := Num(r.maxTokens)]
           + (if r.tools == [] then map[] else map["tools" := List(Mapped(ToolJson, r.tools))]))
  }

  const REQUEST_FIELDS: seq<string> :=
    ["messages", "system", "tools", "tool_choice", "max_tokens", "temperature", "top_p", "top_k", "stop_sequences",
     "thinking", "metadata"]

  predicate ValidMessage(message: Json) {
    && message.Object?
    && var m := message.members;
       && Only(m, ["role", "content"])
       && (Str(Get(m, "role")) == "user" || Str(Get(m, "role")) == "assistant")
       && ValidContent(Get(m, "content"))
  }

  predicate ValidTool(tool: Json) {
    && tool.Object?
    && Only(tool.members, ["name", "description", "input_schema", "cache_control"])
    && Str(Get(tool.members, "name")) != "" && "input_schema" in tool.members
  }

  /** `Validate`, the last check before a request leaves. */
  predicate Validate(body: Json) {
    && body.Object?
    && var m := body.members;
       && Only(m, REQUEST_FIELDS)
       && ("tool_choice" in m ==> m["tool_choice"].Object? && Only(m["tool_choice"].members, ["type"])
                                  && Str(Get(m["tool_choice"].members, "type")) == "auto")
       && "messages" in m && m["messages"].List? && m["messages"].items != []
       && (forall i | 0 <= i < |m["messages"].items| :: ValidMessage(m["messages"].items[i]))
       && ("system" in m ==> ValidContent(Some(m["system"])))
       && ("tools" in m ==>
             || m["tools"].Null?
             || (m["tools"].List? && forall i | 0 <= i < |m["tools"].items| :: ValidTool(m["tools"].items[i])))
  }

  /** The state of a request that the validator accepts, said of the request itself. */
  predicate Sendable(r: Request) {
    && r.messages != []
    && (forall i | 0 <= i < |r.messages| :: MessageSendable(r.messages[i]))
    && ValidValue(r.system)
    && (forall i | 0 <= i < |r.tools| :: r.tools[i].name != "")
  }

  lemma MessageValid(m: Message)
    ensures ValidMessage(MessageJson(m))
       <==> (m.role == "user" || m.role == "assistant") && (m.content.Some? ==> ValidValue(m.content.value))
  {
    var fields := ["role", "content"];
    assert fields[0] == "role" && fields[1] == "content";
    OnlyOf(MessageJson(m).members, fields);
    hide Only;
  }

  lemma ToolValid(t: Tool)
    ensures ValidTool(ToolJson(t)) <==> t.name != ""
  {
    hide Only;
    var fields := ["name", "description", "input_schema", "cache_control"];
    assert fields[0] == "name" && fields[1] == "description" && fields[2] == "input_schema" && fields[3] == "cache_control";
    OnlyOf(ToolJson(t).members, fields);
  }

  lemma RequestFields(r: Request)
    ensures Only(RequestJson(r).members, REQUEST_FIELDS)
  {
    var f := REQUEST_FIELDS;
    assert f[0] == "messages" && f[1] == "system" && f[2] == "tools" && f[4] == "max_tokens";
    OnlyOf(RequestJson(r).members, REQUEST_FIELDS);
    hide Only;
  }

  predicate MessageSendable(m: Message) {
    (m.role == "user" || m.role == "assistant") && (m.content.Some? ==> ValidValue(m.content.value))
  }

  lemma MembersOf(r: Request)
    ensures RequestJson(r).Object?
    ensures Mapped(MessageJson, r.messages) == [] <==> r.messages == []
    ensures var m := RequestJson(r).members;
            && "tool_choice" !in m
            && "messages" in m && m["messages"] == List(Mapped(MessageJson, r.messages))
            && "system" in m && m["system"] == r.system
            && ("tools" in m <==> r.tools != [])
            && ("tools" in m ==> m["tools"] == List(Mapped(ToolJson, r.tools)))
  {
  }

  lemma ListsValid(r: Request)
    ensures (forall i | 0 <= i < |r.messages| :: ValidMessage(Mapped(MessageJson, r.messages)[i]))
       <==> forall i | 0 <= i < |r.messages| :: MessageSendable(r.messages[i])
    ensures (forall i | 0 <= i < |r.tools| :: ValidTool(Mapped(ToolJson, r.tools)[i]))
       <==> forall i | 0 <= i < |r.tools| :: r.tools[i].name != ""
  {
    forall i | 0 <= i < |r.messages|
      ensures ValidMessage(Mapped(MessageJson, r.messages)[i]) <==> MessageSendable(r.messages[i])
    {
      MessageValid(r.messages[i]);
    }
    forall i | 0 <= i < |r.tools| ensures ValidTool(Mapped(ToolJson, r.tools)[i]) <==> r.tools[i].name != "" {
      ToolValid(r.tools[i]);
    }
    hide ValidMessage, ValidTool, MessageJson, ToolJson, MessageSendable;
  }

  /** The validator accepts exactly the sendable requests. */
  lemma ValidateIsSendable(r: Request)
    ensures Validate(RequestJson(r)) <==> Sendable(r)
  {
    hide Only, ValidMessage, ValidTool, MessageJson, ToolJson, ValidValue, RequestJson, MessageSendable;
    RequestFields(r);
    MembersOf(r);
    ListsValid(r);
  }

  // ----- the vocabulary --------------------------------------------------------------------

  predicate Base64Char(c: char) {
    'A' <= c <= 'Z' || 'a' <= c <= 'z' || '0' <= c <= '9' || c == '+' || c == '/'
  }

  /** Groups of four characters, the last one filled up with one or two equals signs. */
  predicate Base64(data: string) {
    && |data| % 4 == 0
    && exists pad | 0 <= pad <= 2 && pad <= |data| :: Padded(data, pad)
  }

  predicate Padded(data: string, pad: nat)
    requires pad <= |data|
  {
    && (forall i | 0 <= i < |data| - pad :: Base64Char(data[i]))
    && (forall i | |data| - pad <= i < |data| :: data[i] == '=')
  }

  lemma {:induction false} NothingToSkip(data: string)
    requires '\n' !in data && '\r' !in data
    ensures WithoutBreaks(data) == data
  {
    if data != "" {
      assert data[0] in data && forall c | c in data[1..] :: c in data;
      NothingToSkip(data[1..]);
    }
  }

  /** What counts as an encoded file, apart from line breaks. */
  lemma EncodedFile(data: string)
    requires '\n' !in data && '\r' !in data
    ensures IsBase64(data) <==> Base64(data)
  {
    NothingToSkip(data);
    var n := Padding(data);
    hide WithoutBreaks;
    if IsBase64(data) {
      assert forall i | 0 <= i < |data| - n :: InAlphabet(data[i]) && Base64Char(data[i]);
      assert Padded(data, n);
    }
    if |data| % 4 == 0 {
      if pad :| 0 <= pad <= 2 && pad <= |data| && Padded(data, pad) {
        PaddingIs(data, pad);
        assert forall i | 0 <= i < |data| - n :: Base64Char(data[i]) && InAlphabet(data[i]);
      }
    }
  }

  lemma PaddingIs(data: string, pad: nat)
    requires pad <= 2 && pad <= |data| && Padded(data, pad)
    ensures Padding(data) == pad
  {
    if pad < |data| {
      assert Base64Char(data[|data| - pad - 1]);
    }
  }

  lemma {:induction false} BreaksAreSkipped(a: string, b: string, c: char)
    requires c == '\n' || c == '\r'
    ensures IsBase64(a + [c] + b) <==> IsBase64(a + b)
  {
    SkippedBreak(a, b, c);
  }

  lemma {:induction false} SkippedBreak(a: string, b: string, c: char)
    requires c == '\n' || c == '\r'
    ensures WithoutBreaks(a + [c] + b) == WithoutBreaks(a + b)
    decreases |a|
  {
    if a == "" {
      assert (a + [c] + b)[0] == c && (a + [c] + b)[1..] == b && a + b == b;
    } else {
      SkippedBreak(a[1..], b, c);
      assert (a + [c] + b)[0] == a[0] == (a + b)[0];
      assert (a + [c] + b)[1..] == a[1..] + [c] + b && (a + b)[1..] == a[1..] + b;
    }
  }

  /** The blocks of the vocabulary, by what they may contain. */
  lemma FieldsByKind(m: map<string, Json>)
    requires NoBlanks(m)
    ensures Only(m, FieldsOf(TextKind)) <==> m.Keys <= {"type", "text", "cache_control"}
    ensures Only(m, FieldsOf(ThinkingKind)) <==> m.Keys <= {"type", "thinking", "signature"}
    ensures Only(m, FieldsOf(RedactedKind)) <==> m.Keys <= {"type", "data"}
    ensures Only(m, FieldsOf(ToolUseKind)) <==> m.Keys <= {"type", "id", "name", "input", "caller"}
  {
    hide Only;
    assert OneWord("type") && OneWord("text") && OneWord("cache_control") && OneWord("thinking") && OneWord("signature");
    assert OneWord("data") && OneWord("id") && OneWord("name") && OneWord("input") && OneWord("caller");
    OnlyWithin(m, FieldsOf(TextKind), {"type", "text", "cache_control"});
    OnlyWithin(m, FieldsOf(ThinkingKind), {"type", "thinking", "signature"});
    OnlyWithin(m, FieldsOf(RedactedKind), {"type", "data"});
    OnlyWithin(m, FieldsOf(ToolUseKind), {"type", "id", "name", "input", "caller"});
  }

  lemma FieldsOfResults(m: map<string, Json>, image: bool)
    requires NoBlanks(m)
    ensures Only(m, FieldsOf(ToolResultKind)) <==> m.Keys <= {"type", "tool_use_id", "content", "is_error", "cache_control"}
    ensures Only(m, FieldsOf(MediaKind(image))) <==> m.Keys <= {"type", "source", "cache_control", "title", "context"}
  {
    hide Only;
    assert OneWord("type") && OneWord("tool_use_id") && OneWord("content") && OneWord("is_error") && OneWord("cache_control");
    assert OneWord("source") && OneWord("title") && OneWord("context");
    OnlyWithin(m, FieldsOf(ToolResultKind), {"type", "tool_use_id", "content", "is_error", "cache_control"});
    OnlyWithin(m, FieldsOf(MediaKind(image)), {"type", "source", "cache_control", "title", "context"});
  }

  lemma FieldsInside(m: map<string, Json>)
    requires NoBlanks(m)
    ensures Only(m, ["type", "media_type", "data"]) <==> m.Keys <= {"type", "media_type", "data"}
    ensures Only(m, ["type"]) <==> m.Keys <= {"type"}
  {
    hide Only;
    assert OneWord("type") && OneWord("media_type") && OneWord("data");
    OnlyWithin(m, ["type", "media_type", "data"], {"type", "media_type", "data"});
    OnlyWithin(m, ["type"], {"type"});
  }

  /** Text and thinking. */
  lemma WordsVocabulary(m: map<string, Json>)
    requires NoBlanks(m)
    ensures Get(m, "type") == Some(Text("text")) ==>
              (ValidBlock(Object(m)) <==> "text" in m && m.Keys <= {"type", "text", "cache_control"})
    ensures Get(m, "type") == Some(Text("thinking")) ==>
              (ValidBlock(Object(m)) <==> m.Keys <= {"type", "thinking", "signature"})
    ensures Get(m, "type") == Some(Text("redacted_thinking")) ==>
              (ValidBlock(Object(m)) <==> m.Keys <= {"type", "data"})
  {
    hide Only, FieldsOf;
    FieldsByKind(m);
  }

  /** Calls and their results. */
  lemma CallsVocabulary(m: map<string, Json>)
    requires NoBlanks(m) && ("caller" in m && m["caller"].Object? ==> NoBlanks(m["caller"].members))
    ensures Get(m, "type") == Some(Text("tool_use")) ==>
              (ValidBlock(Object(m)) <==>
                 && m.Keys <= {"type", "id", "name", "input", "caller"} && Texted(m, "id") && Texted(m, "name")
                 && "input" in m && m["input"].Object?
                 && ("caller" in m ==> m["caller"] == Object(map["type" := Text("direct")])))
    ensures Get(m, "type") == Some(Text("tool_result")) ==>
              (ValidBlock(Object(m)) <==>
                 && m.Keys <= {"type", "tool_use_id", "content", "is_error", "cache_control"}
                 && Texted(m, "tool_use_id") && "content" in m && ValidValue(m["content"]))
  {
    hide Only, FieldsOf, ValidValue;
    FieldsByKind(m);
    FieldsOfResults(m, true);
    if "caller" in m && m["caller"].Object? {
      FieldsInside(m["caller"].members);
      OneMember(m["caller"].members, "direct");
    }
  }

  lemma OneMember(m: map<string, Json>, word: string)
    ensures m.Keys <= {"type"} && Get(m, "type") == Some(Text(word)) <==> m == map["type" := Text(word)]
  {
    if m.Keys <= {"type"} && "type" in m {
      assert m.Keys == {"type"};
    }
  }

  /** Pictures and documents: embedded, of a known type for a picture, and nothing unknown beside. */
  lemma FilesVocabulary(m: map<string, Json>)
    requires NoBlanks(m) && ("source" in m && m["source"].Object? ==> NoBlanks(m["source"].members))
    ensures Get(m, "type") == Some(Text("image")) ==>
              (ValidBlock(Object(m)) <==>
                 && m.Keys <= {"type", "source", "cache_control", "title", "context"} && EmbeddedAt(m)
                 && m["source"].members["media_type"].text in {"image/png", "image/jpeg", "image/gif", "image/webp"})
    ensures Get(m, "type") == Some(Text("document")) ==>
              (ValidBlock(Object(m)) <==>
                 m.Keys <= {"type", "source", "cache_control", "title", "context"} && EmbeddedAt(m))
  {
    hide Only, FieldsOf, IsBase64;
    FieldsOfResults(m, true);
    FieldsOfResults(m, false);
    if "source" in m && m["source"].Object? {
      FieldsInside(m["source"].members);
    }
  }

  predicate EmbeddedAt(m: map<string, Json>) {
    && "source" in m && m["source"].Object?
    && var source := m["source"].members;
       && source.Keys <= {"type", "media_type", "data"} && Get(source, "type") == Some(Text("base64"))
       && Texted(source, "media_type") && Texted(source, "data") && IsBase64(source["data"].text)
  }

  /** Nothing else is in the vocabulary. */
  lemma NothingElse(m: map<string, Json>)
    requires Get(m, "type") !in {Some(Text("text")), Some(Text("thinking")), Some(Text("redacted_thinking")),
                                 Some(Text("tool_use")), Some(Text("tool_result")), Some(Text("image")), Some(Text("document"))}
    ensures !ValidBlock(Object(m))
  {
    hide Only;
  }

  /** Messages and tools. */
  lemma MessageVocabulary(m: map<string, Json>)
    requires NoBlanks(m)
    ensures ValidMessage(Object(m)) <==>
              && m.Keys <= {"role", "content"} && Get(m, "role") in {Some(Text("user")), Some(Text("assistant"))}
              && "content" in m && ValidValue(m["content"])
  {
    hide Only, ValidValue;
    assert OneWord("role") && OneWord("content");
    OnlyWithin(m, ["role", "content"], {"role", "content"});
  }

  lemma ToolVocabulary(m: map<string, Json>)
    requires NoBlanks(m)
    ensures ValidTool(Object(m)) <==>
              m.Keys <= {"name", "description", "input_schema", "cache_control"} && Texted(m, "name") && "input_schema" in m
  {
    hide Only;
    assert OneWord("name") && OneWord("description") && OneWord("input_schema") && OneWord("cache_control");
    OnlyWithin(m, ["name", "description", "input_schema", "cache_control"],
               {"name", "description", "input_schema", "cache_control"});
  }

  lemma RequestNames(m: map<string, Json>)
    requires NoBlanks(m)
    ensures Only(m, REQUEST_FIELDS) <==>
              m.Keys <= {"messages", "system", "tools", "tool_choice", "max_tokens", "temperature", "top_p", "top_k",
                         "stop_sequences", "thinking", "metadata"}
  {
    hide Only;
    assert OneWord("messages") && OneWord("system") && OneWord("tools") && OneWord("tool_choice") && OneWord("max_tokens");
    assert OneWord("temperature") && OneWord("top_p") && OneWord("top_k") && OneWord("stop_sequences");
    assert OneWord("thinking") && OneWord("metadata");
    OnlyWithin(m, REQUEST_FIELDS,
               {"messages", "system", "tools", "tool_choice", "max_tokens", "temperature", "top_p", "top_k",
                "stop_sequences", "thinking", "metadata"});
  }

  /** Which requests: some messages, a valid system, tools perhaps, no choice of tools but the model's own, and nothing
      unknown beside. */
  lemma RequestVocabulary(m: map<string, Json>)
    requires NoBlanks(m) && ("tool_choice" in m && m["tool_choice"].Object? ==> NoBlanks(m["tool_choice"].members))
    ensures Validate(Object(m)) <==>
              && m.Keys <= {"messages", "system", "tools", "tool_choice", "max_tokens", "temperature", "top_p", "top_k",
                            "stop_sequences", "thinking", "metadata"}
              && ("tool_choice" in m ==> m["tool_choice"] == Object(map["type" := Text("auto")]))
              && "messages" in m && m["messages"].List? && m["messages"].items != []
              && (forall message | message in m["messages"].items :: ValidMessage(message))
              && ("system" in m ==> ValidValue(m["system"]))
              && ("tools" in m ==>
                    m["tools"].Null? || (m["tools"].List? && forall tool | tool in m["tools"].items :: ValidTool(tool)))
  {
    hide Only, ValidMessage, ValidTool, ValidValue;
    RequestNames(m);
    if "tool_choice" in m && m["tool_choice"].Object? {
      FieldsInside(m["tool_choice"].members);
      OneMember(m["tool_choice"].members, "auto");
    }
    if "messages" in m && m["messages"].List? {
      var items := m["messages"].items;
      assert (forall x | x in items :: ValidMessage(x)) <==> forall i | 0 <= i < |items| :: ValidMessage(items[i]);
    }
    if "tools" in m && m["tools"].List? {
      var items := m["tools"].items;
      assert (forall x | x in items :: ValidTool(x)) <==> forall i | 0 <= i < |items| :: ValidTool(items[i]);
    }
  }

  /** What is written of a tool: its parts, a description only if there is one, and the mark of the cached prefix. */
  lemma ToolIsWritten(t: Tool)
    ensures var j := ToolJson(t).members;
            && Get(j, "name") == Some(Text(t.name)) && Get(j, "input_schema") == Some(t.schema)
            && Get(j, "description") == (if t.description == "" then None else Some(Text(t.description)))
            && Get(j, "cache_control") == if t.cached then Some(Object(map["type" := Text("ephemeral")])) else None
  {
  }

  // ----- tool results ----------------------------------------------------------------------

  function Candidate(block: map<string, Json>): Json {
    Object(map["type" := Text("image"),
               "source" := Object(map["type" := Text("base64"), "media_type" := Text(Str(Get(block, "mimeType"))),
                                      "data" := Text(Str(Get(block, "data")))])])
  }

  function Project(block: map<string, Json>): Json {
    if Str(Get(block, "type")) == "text" then TextBlock(Str(Get(block, "text")))
    else if Str(Get(block, "type")) == "image" && ValidValue(List([Candidate(block)])) then Candidate(block)
    else TextBlock(PLACEHOLDER)
  }

  /** What a tool result becomes in the history; `render` writes a JSON value as text. */
  function ResultJson(id: string, raw: Json, render: Json -> string): Json {
    var d := DecodeResult(raw);
    ResultBlock(id, ResultBlocks(d, render), d.isError || d.odd)
  }

  function ResultBlocks(d: Decoded, render: Json -> string): seq<Json> {
    var all := Mapped(Project, d.blocks) + (if d.structured.Some? then [TextBlock(render(d.structured.value))] else []);
    if all == [] then [TextBlock(PLACEHOLDER)] else all
  }

  function ResultBlock(id: string, blocks: seq<Json>, isError: bool): Json {
    Object(map["type" := Text("tool_result"), "tool_use_id" := Text(id), "content" := List(blocks),
               "is_error" := Bool(isError)])
  }

  /** `ToolResult`, with the loop of the source. */
  method ToolResult(id: string, raw: Json, render: Json -> string) returns (r: Json)
    ensures r == ResultJson(id, raw, render)
  {
    hide DecodeResult, ValidValue;
    var result := DecodeResult(raw);
    var blocks: seq<Json> := [];
    for i := 0 to |result.blocks|
      invariant blocks == Mapped(Project, result.blocks[..i])
    {
      var b := result.blocks[i];
      var projected := TextBlock(PLACEHOLDER);
      if Str(Get(b, "type")) == "text" {
        projected := TextBlock(Str(Get(b, "text")));
      } else if Str(Get(b, "type")) == "image" {
        if ValidValue(List([Candidate(b)])) {
          projected := Candidate(b);
        }
      }
      blocks := blocks + [projected];
      MappedAppend(Project, result.blocks[..i], b);
      assert result.blocks[..i + 1] == result.blocks[..i] + [b];
    }
    assert result.blocks[..|result.blocks|] == result.blocks;
    ghost var mapped := blocks;
    if result.structured.Some? {
      blocks := blocks + [TextBlock(render(result.structured.value))];
    }
    assert mapped + [] == mapped;
    if blocks == [] {
      blocks := [TextBlock(PLACEHOLDER)];
    }
    return ResultBlock(id, blocks, result.isError || result.odd);
  }

  lemma TextBlockValid(text: string)
    ensures ValidBlock(TextBlock(text))
  {
    var block := TextBlock(text).members;
    assert KindOf(block) == TextKind;
    var fields := FieldsOf(TextKind);
    assert fields[0] == "type" && fields[1] == "text";
    OnlyOf(block, fields);
    hide Only;
  }

  /** Whatever a tool sends, what it becomes is allowed: text, or an image that the validator itself has passed, and
      the fixed text for everything else. */
  lemma ProjectValid(block: map<string, Json>)
    ensures ValidBlock(Project(block))
    ensures Project(block) == TextBlock(PLACEHOLDER)
         || (Str(Get(block, "type")) == "text" && Project(block) == TextBlock(Str(Get(block, "text"))))
         || (Str(Get(block, "type")) == "image" && Project(block) == Candidate(block))
  {
    TextBlockValid(PLACEHOLDER);
    TextBlockValid(Str(Get(block, "text")));
    hide ValidBlock, Candidate;
    if Project(block) == Candidate(block) && ValidValue(List([Candidate(block)])) {
      assert ValidBlock([Candidate(block)][0]);
    }
  }

  /** Every tool result can be sent back, whatever the tool has answered. */
  lemma ResultValid(id: string, raw: Json, render: Json -> string)
    requires id != ""
    ensures ValidBlock(ResultJson(id, raw, render))
  {
    hide DecodeResult, ResultBlocks;
    BlocksValid(DecodeResult(raw), render);
    WrappedValid(id, ResultBlocks(DecodeResult(raw), render), DecodeResult(raw).isError || DecodeResult(raw).odd);
  }

  lemma WrappedValid(id: string, blocks: seq<Json>, isError: bool)
    requires id != "" && ValidValue(List(blocks))
    ensures ValidBlock(ResultBlock(id, blocks, isError))
  {
    hide ValidValue, Only;
    var r, f := ResultBlock(id, blocks, isError).members, FieldsOf(ToolResultKind);
    ResultKind(id, blocks, isError);
    assert f[0] == "type" && f[1] == "tool_use_id" && f[2] == "content" && f[3] == "is_error";
    OnlyOf(r, f);
  }

  lemma ResultKind(id: string, blocks: seq<Json>, isError: bool)
    ensures KindOf(ResultBlock(id, blocks, isError).members) == ToolResultKind
  {
    assert |Str(Get(ResultBlock(id, blocks, isError).members, "type"))| == |"tool_result"| == 11;
  }

  lemma BlocksValid(d: Decoded, render: Json -> string)
    ensures ValidValue(List(ResultBlocks(d, render)))
  {
    hide ValidBlock, Project, TextBlock;
    var items := ResultBlocks(d, render);
    forall i | 0 <= i < |items| ensures ValidBlock(items[i]) {
      TextBlockValid(PLACEHOLDER);
      if i < |d.blocks| {
        ProjectValid(d.blocks[i]);
      } else if d.structured.Some? {
        TextBlockValid(render(d.structured.value));
      }
    }
  }

  /** One part of a result: a text as it is, an image as it is if the validator passes it, the fixed text for anything
      else. */
  predicate PartSaid(item: map<string, Json>, block: Json) {
    if Get(item, "type") == Some(Text("text")) then
      block == TextBlock(if "text" in item && item["text"].Text? then item["text"].text else "")
    else if Get(item, "type") == Some(Text("image")) && ValidBlock(Candidate(item)) then
      && block.Object? && Get(block.members, "type") == Some(Text("image"))
      && "source" in block.members && block.members["source"].Object?
      && var source := block.members["source"].members;
         && Get(source, "type") == Some(Text("base64"))
         && Get(source, "media_type") == Some(Text(Str(Get(item, "mimeType"))))
         && Get(source, "data") == Some(Text(Str(Get(item, "data"))))
    else block == TextBlock(PLACEHOLDER)
  }

  lemma PartIsSaid(item: map<string, Json>)
    ensures PartSaid(item, Project(item))
  {
    hide ValidBlock;
    assert ValidValue(List([Candidate(item)])) <==> ValidBlock(Candidate(item)) by { OneValid(Candidate(item)); }
  }

  lemma OneValid(block: Json)
    ensures ValidValue(List([block])) <==> ValidBlock(block)
  {
    hide ValidBlock;
    assert [block][0] == block;
  }

  /** What the model reads of a tool's result: every part of it in order, the structured part last, marked as an error
      exactly if the tool has marked it. */
  lemma ResultSays(
      id: string, raw: Json, items: seq<map<string, Json>>, structured: Raw, isError: bool, render: Json -> string)
    returns (blocks: seq<Json>)
    requires ProtocolResult(raw, items, structured, isError)
    ensures |blocks| == |items| && forall i | 0 <= i < |items| :: PartSaid(items[i], blocks[i])
    ensures var all := blocks + if structured.Some? then [TextBlock(render(structured.value))] else [];
            ResultJson(id, raw, render)
            == Object(map["type" := Text("tool_result"), "tool_use_id" := Text(id), "is_error" := Bool(isError),
                          "content" := List(if all == [] then [TextBlock(PLACEHOLDER)] else all)])
  {
    ProtocolResultIsRead(raw, items, structured, isError);
    hide ProtocolResult, DecodeResult, Project, PartSaid, TextBlock;
    blocks := Mapped(Project, items);
    forall i | 0 <= i < |items| ensures PartSaid(items[i], blocks[i]) {
      PartIsSaid(items[i]);
    }
  }

  // ----- the history -----------------------------------------------------------------------

  datatype Block = Block(kind: string, text: string, id: string, name: string, input: Raw)

  /** One element of an answer as Go decodes it; a null leaves an empty block. */
  function DecodeBlock(item: Json): Option<Block> {
    if item.Null? then Some(Block("", "", "", "", None))
    else if !item.Object? then None
    else
      var m := item.members;
      match (StringField(m, "type"), StringField(m, "text"), StringField(m, "id"), StringField(m, "name"))
      case (Some(kind), Some(text), Some(id), Some(name)) => Some(Block(kind, text, id, name, Get(m, "input")))
      case _ => None
  }

  function DecodeBlocks(content: Json): Option<seq<Block>> {
    if content.Null? then Some([])
    else if !content.List? || exists i | 0 <= i < |content.items| :: DecodeBlock(content.items[i]) == None then None
    else Some(seq(|content.items|, i requires 0 <= i < |content.items| => DecodeBlock(content.items[i]).value))
  }

  function CallsOf(blocks: seq<Block>): seq<ToolCall> {
    if blocks == [] then []
    else
      var b := blocks[|blocks| - 1];
      CallsOf(blocks[..|blocks| - 1]) + if b.kind == "tool_use" then [ToolCall(b.id, b.name, b.input)] else []
  }

  function TextOf(blocks: seq<Block>): string {
    if blocks == [] then ""
    else
      var b := blocks[|blocks| - 1];
      TextOf(blocks[..|blocks| - 1]) + if b.kind == "text" then b.text else ""
  }

  /** The answer of the model: its content and its stop reason. */
  function DecodeAnswer(raw: Raw): Option<(Raw, string)> {
    if raw == None then None
    else if raw.value.Null? then Some((None, ""))
    else if !raw.value.Object? then None
    else
      match StringField(raw.value.members, "stop_reason")
      case None => None
      case Some(stop) => Some((Get(raw.value.members, "content"), stop))
  }

  /** One turn: the history grows by the whole content of a valid answer. */
  function NextTurn(request: Request, answer: Raw): (Request, Result<Turn, Halt>) {
    match DecodeAnswer(answer)
    case None => (request, Err(GATEWAY_ERROR))
    case Some((content, stop)) =>
      if !ValidContent(content) then (request, Err(GATEWAY_ERROR))
      else
        var grown := request.(messages := request.messages + [Message("assistant", content)]);
        match DecodeBlocks(content.value)
        case None => (grown, Err(GATEWAY_ERROR))
        case Some(blocks) => (grown, Ok(Turn(TextOf(blocks), stop, CallsOf(blocks))))
  }

  /** The text of the text blocks, one after the other. */
  function Said(items: seq<Json>): string {
    if items == [] then ""
    else
      var last := items[|items| - 1];
      Said(items[..|items| - 1])
      + (if last.Object? && Get(last.members, "type") == Some(Text("text")) && Get(last.members, "text").Some?
            && last.members["text"].Text?
         then last.members["text"].text else "")
  }

  /** The tool blocks, in order, with id, name and input. */
  function Wanted(items: seq<Json>): seq<ToolCall> {
    if items == [] then []
    else
      var last := items[|items| - 1];
      Wanted(items[..|items| - 1])
      + (if last.Object? && Get(last.members, "type") == Some(Text("tool_use"))
         then [ToolCall(Str(Get(last.members, "id")), Str(Get(last.members, "name")), Get(last.members, "input"))] else [])
  }

  /** An answer, in the words of the provider: why it ended, and its blocks. */
  predicate AnswerSays(answer: Raw, stop: string, items: seq<Json>) {
    && answer.Some? && answer.value.Object?
    && var m := answer.value.members;
       && "content" in m && (m["content"] == List(items) || (m["content"].Null? && items == []))
       && (if "stop_reason" in m && !m["stop_reason"].Null? then m["stop_reason"] == Text(stop) else stop == "")
  }

  lemma BlockSays(item: Json)
    requires DecodeBlock(item).Some?
    ensures var b := DecodeBlock(item).value;
            && (b.kind == "text" <==> item.Object? && Get(item.members, "type") == Some(Text("text")))
            && (b.kind == "tool_use" <==> item.Object? && Get(item.members, "type") == Some(Text("tool_use")))
            && (item.Object? ==>
                  b.text == Str(Get(item.members, "text")) && b.id == Str(Get(item.members, "id"))
                  && b.name == Str(Get(item.members, "name")) && b.input == Get(item.members, "input"))
  {
  }

  lemma {:induction false} BlocksSay(items: seq<Json>)
    requires DecodeBlocks(List(items)).Some?
    ensures TextOf(DecodeBlocks(List(items)).value) == Said(items)
    ensures CallsOf(DecodeBlocks(List(items)).value) == Wanted(items)
    decreases |items|
  {
    hide DecodeBlock;
    var blocks := DecodeBlocks(List(items)).value;
    if items != [] {
      var n := |items| - 1;
      assert blocks[..n] == DecodeBlocks(List(items[..n])).value;
      BlocksSay(items[..n]);
      BlockSays(items[n]);
    }
  }

  lemma NoBlocks()
    ensures DecodeBlocks(List([])) == Some([]) && DecodeBlocks(Null) == Some([])
  {
    assert DecodeBlocks(List([])).value == [];
  }

  /** A turn is what the blocks of the answer say, in order, with the provider's own word for its end. */
  lemma TurnIsTheAnswer(request: Request, answer: Raw) returns (items: seq<Json>)
    requires NextTurn(request, answer).1.Ok?
    ensures var turn := NextTurn(request, answer).1.value;
            AnswerSays(answer, turn.stop, items) && turn.text == Said(items) && turn.calls == Wanted(items)
  {
    hide ValidValue, DecodeBlock, TextOf, CallsOf;
    var content := DecodeAnswer(answer).value.0.value;
    if content.List? {
      items := content.items;
      assert content == List(items);
      BlocksSay(items);
    } else {
      items := [];
      NoBlocks();
      BlocksSay([]);
    }
  }

  /** A tool block, as the provider writes it. */
  function CallJson(id: string, name: string, input: map<string, Json>): Json {
    Object(map["type" := Text("tool_use"), "id" := Text(id), "name" := Text(name), "input" := Object(input)])
  }

  lemma CallJsonValid(id: string, name: string, input: map<string, Json>)
    requires id != "" && name != ""
    ensures ValidBlock(CallJson(id, name, input))
  {
    var block, fields := CallJson(id, name, input).members, FieldsOf(ToolUseKind);
    ToolUseIs(block);
    assert fields[0] == "type" && fields[1] == "id" && fields[2] == "name" && fields[3] == "input";
    OnlyOf(block, fields);
    hide Only;
  }

  /** An answer of the usual shape is taken as it is: a text and one call after it. */
  lemma UsualAnswer(request: Request, stop: string, text: string, id: string, name: string, input: map<string, Json>)
    requires id != "" && name != ""
    ensures var items := [TextBlock(text), CallJson(id, name, input)];
            var (grown, turn) := NextTurn(request, Some(Object(map["stop_reason" := Text(stop), "content" := List(items)])));
            && grown == request.(messages := request.messages + [Message("assistant", Some(List(items)))])
            && turn == Ok(Turn(text, stop, [ToolCall(id, name, Some(Object(input)))]))
  {
    hide ValidValue, DecodeBlocks, TextOf, CallsOf, TextBlock, CallJson;
    var items := [TextBlock(text), CallJson(id, name, input)];
    UsualBlocks(text, id, name, input);
    BlocksSay(items);
    UsualEnd(stop, items);
  }

  lemma UsualEnd(stop: string, items: seq<Json>)
    ensures DecodeAnswer(Some(Object(map["stop_reason" := Text(stop), "content" := List(items)]))) == Some((Some(List(items)), stop))
  {
  }

  lemma UsualBlocks(text: string, id: string, name: string, input: map<string, Json>)
    requires id != "" && name != ""
    ensures var items := [TextBlock(text), CallJson(id, name, input)];
            && ValidValue(List(items)) && DecodeBlocks(List(items)).Some?
            && Said(items) == text && Wanted(items) == [ToolCall(id, name, Some(Object(input)))]
  {
    var items := [TextBlock(text), CallJson(id, name, input)];
    UsualSaid(text, id, name, input);
    TextBlockValid(text);
    CallJsonValid(id, name, input);
    hide ValidBlock, Only, TextBlock, CallJson, Said, Wanted;
  }

  lemma UsualSaid(text: string, id: string, name: string, input: map<string, Json>)
    ensures var items := [TextBlock(text), CallJson(id, name, input)];
            && Said(items) == text && Wanted(items) == [ToolCall(id, name, Some(Object(input)))]
            && DecodeBlock(items[0]).Some? && DecodeBlock(items[1]).Some?
  {
    var items := [TextBlock(text), CallJson(id, name, input)];
    assert items[..1] == [TextBlock(text)] && items[..1][..0] == [];
    assert "tool_use"[1] == 'o' && "text"[1] == 'e';
    assert Said(items[..1]) == text && Wanted(items[..1]) == [];
  }

  function ResultsMessage(outcomes: seq<ToolOutcome>, render: Json -> string): Message {
    Message("user", Some(List(seq(|outcomes|, i requires 0 <= i < |outcomes| =>
                                    ResultJson(outcomes[i].id, outcomes[i].raw, render)))))
  }

  /** The ids of one kind of block in a message, in order. */
  function IdsIn(content: Raw, kind: string, field: string): seq<string> {
    if content.Some? && content.value.List? then IdsAmong(content.value.items, kind, field) else []
  }

  function IdsAmong(items: seq<Json>, kind: string, field: string): seq<string> {
    if items == [] then []
    else
      var item := items[|items| - 1];
      IdsAmong(items[..|items| - 1], kind, field)
      + (if item.Object? && Str(Get(item.members, "type")) == kind then [Str(Get(item.members, field))] else [])
  }

  /** A reader of the history: the tool calls still to be answered, or none at all if an earlier one was not
      answered exactly once, in order, in the very next message. */
  function Pending(messages: seq<Message>): Option<seq<string>> {
    if messages == [] then Some([])
    else
      var m := messages[|messages| - 1];
      match Pending(messages[..|messages| - 1])
      case None => None
      case Some(open) =>
        if m.role == "assistant" then
          (if open == [] then Some(IdsIn(m.content, "tool_use", "id")) else None)
        else if Unique(open) && IdsIn(m.content, "tool_result", "tool_use_id") == open then Some([])
        else None
  }

  /** A history with all calls answered, acceptable to the validator. */
  predicate Complete(request: Request) {
    Sendable(request) && Pending(request.messages) == Some([])
  }

  lemma PendingAppend(messages: seq<Message>, m: Message)
    ensures Pending(messages + [m])
         == match Pending(messages)
            case None => None
            case Some(open) =>
              if m.role == "assistant" then
                (if open == [] then Some(IdsIn(m.content, "tool_use", "id")) else None)
              else if Unique(open) && IdsIn(m.content, "tool_result", "tool_use_id") == open then Some([])
              else None
  {
    assert (messages + [m])[..|messages|] == messages;
  }

  lemma SystemValid(instructions: string)
    ensures ValidValue(NewRequest(instructions, "", [], 0).system)
  {
    var item := Object(map["type" := Text("text"), "text" := Text(instructions), "cache_control" := EPHEMERAL]);
    var fields := FieldsOf(TextKind);
    assert fields[0] == "type" && fields[1] == "text" && fields[2] == "cache_control";
    OnlyOf(item.members, fields);
    hide Only;
    assert ValidBlock(item);
  }

  lemma SameNames(tools: seq<Tool>, instructions: string, input: string, maxTokens: int)
    ensures var marked := NewRequest(instructions, input, tools, maxTokens).tools;
            |marked| == |tools| && forall i | 0 <= i < |tools| :: marked[i].name == tools[i].name
  {
  }

  /** The first request is complete exactly if every tool has a name. */
  lemma NewRequestComplete(instructions: string, input: string, tools: seq<Tool>, maxTokens: int)
    ensures Complete(NewRequest(instructions, input, tools, maxTokens))
       <==> forall i | 0 <= i < |tools| :: tools[i].name != ""
  {
    var r := NewRequest(instructions, input, tools, maxTokens);
    SystemValid(instructions);
    SameNames(tools, instructions, input, maxTokens);
    PendingAppend([], r.messages[0]);
    assert [] + [r.messages[0]] == r.messages;
  }

  /** A turn's calls are the tool blocks of its content, and each has an id and an object as input. */
  lemma {:induction false} CallsAreTheBlocks(items: seq<Json>)
    requires forall i | 0 <= i < |items| :: ValidBlock(items[i])
    requires DecodeBlocks(List(items)).Some?
    ensures var calls := CallsOf(DecodeBlocks(List(items)).value);
            && CallIds(calls) == IdsAmong(items, "tool_use", "id")
            && forall i | 0 <= i < |calls| :: calls[i].id != "" && calls[i].input.Some? && calls[i].input.value.Object?
    decreases |items|
  {
    hide ValidBlock, DecodeBlock;
    var blocks := DecodeBlocks(List(items)).value;
    if items != [] {
      var front, n := items[..|items| - 1], |items| - 1;
      assert blocks[..n] == DecodeBlocks(List(front)).value;
      CallsAreTheBlocks(front);
      OneCall(items[n]);
      var before := CallsOf(blocks[..n]);
      if blocks[n].kind == "tool_use" {
        var call := ToolCall(blocks[n].id, blocks[n].name, blocks[n].input);
        assert CallIds(before + [call]) == CallIds(before) + [call.id];
      } else {
        assert before + [] == before && CallIds(before) + [] == CallIds(before);
      }
    }
  }

  lemma OneCall(item: Json)
    requires ValidBlock(item) && DecodeBlock(item).Some?
    ensures var b := DecodeBlock(item).value;
            && item.Object? && b.kind == Str(Get(item.members, "type"))
            && (b.kind == "tool_use" ==>
                  b.id == Str(Get(item.members, "id")) && b.id != "" && b.input.Some? && b.input.value.Object?)
  {
    hide Only;
    if Str(Get(item.members, "type")) == "tool_use" {
      assert KindOf(item.members) == ToolUseKind by { ToolUseIs(item.members); }
    }
  }

  lemma ToolUseIs(block: map<string, Json>)
    requires Str(Get(block, "type")) == "tool_use"
    ensures KindOf(block) == ToolUseKind
  {
    assert "tool_use"[1] == 'o' && "thinking"[1] == 'h';
    assert |"tool_use"| == 8;
  }

  lemma TurnGrows(request: Request, answer: Raw)
    ensures var grown := NextTurn(request, answer).0;
            request.messages <= grown.messages && grown.system == request.system && grown.tools == request.tools
  {
  }

  /** A turn that the run goes on with leaves a sendable history whose open calls are the turn's. */
  lemma TurnKeeps(request: Request, answer: Raw)
    requires Complete(request) && NextTurn(request, answer).1.Ok?
    ensures var (grown, turn) := NextTurn(request, answer);
            && Sendable(grown) && Pending(grown.messages) == Some(CallIds(turn.value.calls))
            && forall i | 0 <= i < |turn.value.calls| ::
                 turn.value.calls[i].id != "" && turn.value.calls[i].input.Some? && turn.value.calls[i].input.value.Object?
  {
    hide ValidBlock, DecodeBlock, DecodeAnswer, Pending;
    var content := DecodeAnswer(answer).value.0;
    PendingAppend(request.messages, Message("assistant", content));
    var calls := CallsOf(DecodeBlocks(content.value).value);
    if content.value.List? {
      CallsAreTheBlocks(content.value.items);
      assert content.value == List(content.value.items);
    } else {
      assert calls == [] && CallIds(calls) == [];
    }
    assert CallIds(calls) == IdsIn(content, "tool_use", "id");
    assert MessageSendable(Message("assistant", content));
  }

  lemma {:induction false} ResultIds(items: seq<Json>, outcomes: seq<ToolOutcome>, render: Json -> string)
    requires |items| == |outcomes|
    requires forall i | 0 <= i < |items| :: items[i] == ResultJson(outcomes[i].id, outcomes[i].raw, render)
    ensures IdsAmong(items, "tool_result", "tool_use_id") == OutcomeIds(outcomes)
    decreases |items|
  {
    hide DecodeResult, ResultBlocks;
    if items != [] {
      ResultIds(items[..|items| - 1], outcomes[..|outcomes| - 1], render);
      assert OutcomeIds(outcomes) == OutcomeIds(outcomes[..|outcomes| - 1]) + [outcomes[|outcomes| - 1].id];
    }
  }

  /** Answering exactly the open calls, in order, completes the history again, whatever the tools have said. */
  lemma ResultsKeep(request: Request, outcomes: seq<ToolOutcome>, render: Json -> string)
    requires Sendable(request) && Pending(request.messages) == Some(OutcomeIds(outcomes))
    requires Unique(OutcomeIds(outcomes)) && forall i | 0 <= i < |outcomes| :: outcomes[i].id != ""
    ensures Complete(request.(messages := request.messages + [ResultsMessage(outcomes, render)]))
  {
    hide ValidBlock, ResultJson, Pending, Unique, IdsAmong;
    var m := ResultsMessage(outcomes, render);
    PendingAppend(request.messages, m);
    ResultIds(m.content.value.items, outcomes, render);
    forall i | 0 <= i < |outcomes| ensures ValidBlock(m.content.value.items[i]) {
      ResultValid(outcomes[i].id, outcomes[i].raw, render);
    }
    assert MessageSendable(m);
  }
}
