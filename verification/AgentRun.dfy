/** `Runner.run`: the listing of the tools, the bounded loop of model steps and tool calls, and how a run ends. */
module AgentRun {
  import opened Wrappers
  import opened ModelJson
  import opened AgentLoop
  import Anthropic
  import OpenAi

  const MAX_TOOLS: nat := 1024
  const MAX_PAGES: nat := 1024

  /** A listed tool; a schema that cannot be written as JSON is absent. */
  datatype ListedTool = ListedTool(name: string, description: string, schema: Raw)

  datatype Page = Page(tools: seq<ListedTool>, next: string)

  /** How the context stands when the run ends. */
  datatype Fate = Alive | Revoked | TimedOut | CalledOff

  /** Everything the outside contributes: the connection, the listing, the model endpoint at every step, every tool
      call, whether the context is gone before a step or a call, and how it stands in the end. */
  datatype World = World(
    connects: bool, pages: nat -> Option<Page>, replies: nat -> HttpReply, results: nat -> Option<Json>,
    gone: (nat, nat) -> bool, fate: Fate, codec: Codec)

  datatype Outcome = Outcome(end: string, detail: string, text: string)

  datatype Record = Record(steps: nat, toolCalls: nat, tools: seq<string>)

  /** A finished tool step: the calls of the turn, what became of them, and the flag the run remembers. */
  datatype Step = Step(calls: seq<ToolCall>, outcomes: seq<ToolOutcome>, failed: bool)

  /** `finish`: the state of the context overrules every end. */
  function Finish(fate: Fate, end: string, detail: string, text: string): Outcome {
    match fate
    case Revoked => Outcome("revoked", "", "")
    case TimedOut => Outcome("limit", "wall", "")
    case CalledOff => Outcome("cancelled", "", "")
    case Alive => Outcome(end, detail, text)
  }

  function Halted(fate: Fate, halt: Halt): Outcome {
    Finish(fate, halt.end, halt.detail, "")
  }

  // ----- listing ---------------------------------------------------------------------------

  predicate NameChar(c: char) {
    'a' <= c <= 'z' || 'A' <= c <= 'Z' || '0' <= c <= '9' || c == '_' || c == '-'
  }

  predicate ToolName(name: string) {
    1 <= |name| <= 128 && forall c | c in name :: NameChar(c)
  }

  function Names(tools: seq<Tool>): seq<string> {
    seq(|tools|, i requires 0 <= i < |tools| => tools[i].name)
  }

  predicate Listing(tools: seq<Tool>) {
    |tools| <= MAX_TOOLS && Unique(Names(tools)) && forall i | 0 <= i < |tools| :: ToolName(tools[i].name)
  }

  /** The names a tool may have. */
  lemma NamesAllowed(name: string)
    ensures ToolName(name) <==>
              && 1 <= |name| <= 128
              && forall c | c in name :: 'a' <= c <= 'z' || 'A' <= c <= 'Z' || '0' <= c <= '9' || c == '_' || c == '-'
  {
  }

  /** What a listing promises: few tools, told apart by plain names. */
  lemma ListingIsPlain(tools: seq<Tool>, i: nat, j: nat)
    requires Listing(tools) && i < |tools| && j < |tools|
    ensures |tools| <= 1024 && ToolName(tools[i].name)
    ensures tools[i].name == tools[j].name ==> i == j
  {
    assert Names(tools)[i] == tools[i].name && Names(tools)[j] == tools[j].name;
  }

  function ToolOf(t: ListedTool): Tool {
    Tool(t.name, t.description, if t.schema.Some? then t.schema.value else Null)
  }

  function PageTools(page: Option<Page>): seq<Tool> {
    if page == None then [] else Mapped(ToolOf, page.value.tools)
  }

  /** The tools of the first pages, in order. */
  function Collected(w: World, pages: nat): seq<Tool> {
    if pages == 0 then [] else Collected(w, pages - 1) + PageTools(w.pages(pages - 1))
  }

  /** A tool that may follow these: well named, new, within the limit, with a schema. */
  predicate Fits(t: ListedTool, sofar: seq<Tool>) {
    ToolName(t.name) && t.name !in Names(sofar) && |sofar| < 1024 && t.schema.Some?
  }

  /** All tools of a page may follow those before. */
  predicate PageFits(sofar: seq<Tool>, page: seq<ListedTool>) {
    forall i | 0 <= i < |page| :: Fits(page[i], sofar + Mapped(ToolOf, page[..i]))
  }

  /** The cursor of a page, empty at the last one. */
  function CursorOf(w: World, n: nat): string {
    if w.pages(n) == None then "" else w.pages(n).value.next
  }

  predicate Readable(w: World, n: nat) {
    w.pages(n).Some? && PageFits(Collected(w, n), w.pages(n).value.tools)
  }

  /** The cursor of a page leads to one that was not asked for yet, and the limit allows another. */
  predicate Leads(w: World, n: nat) {
    CursorOf(w, n) != "" && n < 1024 && forall m | 0 <= m < n :: CursorOf(w, m) != CursorOf(w, n)
  }

  predicate Reached(w: World, n: nat) {
    forall m | 0 <= m < n :: Readable(w, m) && Leads(w, m)
  }

  /** The listing ends with this page. */
  predicate EndsWith(w: World, n: nat) {
    Reached(w, n) && Readable(w, n) && CursorOf(w, n) == ""
  }

  /** The listing breaks at this page: it is missing, one of its tools does not fit, or its cursor leads nowhere. */
  predicate BreaksAt(w: World, n: nat, halt: Halt) {
    && Reached(w, n)
    && if w.pages(n) == None then halt == GATEWAY_ERROR
       else if !Readable(w, n) then halt == REJECTED
       else halt == GATEWAY_ERROR && CursorOf(w, n) != "" && !Leads(w, n)
  }

  lemma ListedMore(sofar: seq<Tool>, page: seq<ListedTool>, i: nat, tools: seq<Tool>)
    requires i < |page| && tools == sofar + Mapped(ToolOf, page[..i]) && Listing(tools) && Fits(page[i], tools)
    ensures tools + [ToolOf(page[i])] == sofar + Mapped(ToolOf, page[..i + 1])
    ensures Listing(tools + [ToolOf(page[i])])
  {
    var t := page[i];
    assert Names(tools + [ToolOf(t)]) == Names(tools) + [t.name];
    assert page[..i + 1] == page[..i] + [t];
    MappedAppend(ToolOf, page[..i], t);
  }

  /** One page after the others; a tool that does not fit ends it. */
  method ListPage(sofar: seq<Tool>, page: seq<ListedTool>) returns (r: Option<seq<Tool>>)
    requires Listing(sofar)
    ensures r.Some? <==> PageFits(sofar, page)
    ensures r.Some? ==> r.value == sofar + Mapped(ToolOf, page) && Listing(r.value)
  {
    hide Listing, Fits;
    var tools := sofar;
    for i := 0 to |page|
      invariant Listing(tools) && tools == sofar + Mapped(ToolOf, page[..i])
      invariant forall k | 0 <= k < i :: Fits(page[k], sofar + Mapped(ToolOf, page[..k]))
    {
      var t := page[i];
      assert Fits(t, tools) <==> ToolName(t.name) && t.name !in Names(tools) && |tools| < MAX_TOOLS && t.schema.Some? by {
        FitsMeans(t, tools);
      }
      if !ToolName(t.name) || t.name in Names(tools) || |tools| >= MAX_TOOLS || t.schema == None {
        return None;
      }
      ListedMore(sofar, page, i, tools);
      tools := tools + [Tool(t.name, t.description, t.schema.value)];
    }
    assert page[..|page|] == page;
    r := Some(tools);
  }

  lemma FitsMeans(t: ListedTool, sofar: seq<Tool>)
    ensures Fits(t, sofar) <==> ToolName(t.name) && t.name !in Names(sofar) && |sofar| < MAX_TOOLS && t.schema.Some?
  {
  }

  /** All pages of the listing: every name once, every cursor once; or where and why it breaks. */
  method ListTools(w: World) returns (r: Result<seq<Tool>, Halt>)
    ensures r.Ok? ==> Listing(r.value) && exists n: nat :: EndsWith(w, n) && r.value == Collected(w, n + 1)
    ensures r.Err? ==> exists n: nat :: BreaksAt(w, n, r.error)
  {
    hide Listing, PageFits, Mapped, PageTools;
    var tools: seq<Tool> := [];
    assert Listing(tools) by { NothingListed(); }
    var seen: set<string> := {};
    var n: nat := 0;
    while true
      invariant Listing(tools) && tools == Collected(w, n) && Reached(w, n) && |seen| == n <= MAX_PAGES
      invariant forall next :: next in seen <==> exists m | 0 <= m < n :: CursorOf(w, m) == next
      decreases MAX_PAGES - n
    {
      var page := w.pages(n);
      if page == None {
        assert BreaksAt(w, n, GATEWAY_ERROR);
        return Err(GATEWAY_ERROR);
      }
      var listed := ListPage(tools, page.value.tools);
      if listed == None {
        assert BreaksAt(w, n, REJECTED);
        return Err(REJECTED);
      }
      PageListed(w, n);
      tools := listed.value;
      if page.value.next == "" {
        assert EndsWith(w, n);
        return Ok(tools);
      }
      if page.value.next in seen || |seen| >= MAX_PAGES {
        assert BreaksAt(w, n, GATEWAY_ERROR);
        return Err(GATEWAY_ERROR);
      }
      assert Leads(w, n) && CursorOf(w, n) == page.value.next;
      seen := seen + {page.value.next};
      n := n + 1;
    }
  }

  lemma PageListed(w: World, n: nat)
    requires w.pages(n).Some?
    ensures Collected(w, n + 1) == Collected(w, n) + Mapped(ToolOf, w.pages(n).value.tools)
  {
  }

  lemma NothingListed()
    ensures Listing([])
  {
  }

  /** A listing ends in one way. */
  lemma OneListing(w: World, n: nat, m: nat, halt: Halt, other: Halt)
    ensures EndsWith(w, n) && EndsWith(w, m) ==> n == m
    ensures !(EndsWith(w, n) && BreaksAt(w, m, halt))
    ensures BreaksAt(w, n, halt) && BreaksAt(w, m, other) ==> halt == other
  {
    hide PageFits;
    if n < m {
      assert Reached(w, m) ==> Readable(w, n) && Leads(w, n);
    } else if m < n {
      assert Reached(w, n) ==> Readable(w, m) && Leads(w, m);
    }
  }

  // ----- one tool step ---------------------------------------------------------------------

  const INVALID_INPUT: Json := Object(map[
    "isError" := Bool(true),
    "content" := List([Object(map["type" := Text("text"),
                                  "text" := Text("Werkzeug-Eingabe ist kein gültiges JSON-Objekt.")])])])

  /** The error flag of a tool result, never its content. */
  predicate IsError(raw: Json) {
    raw.Object? && Get(raw.members, "isError") == Some(Bool(true))
  }

  predicate AnyError(outcomes: seq<ToolOutcome>) {
    exists i | 0 <= i < |outcomes| :: IsError(outcomes[i].raw)
  }

  predicate WithinLimits(a: Arguments, tools: seq<Tool>, record: Record) {
    && record.steps <= a.steps && record.toolCalls <= a.toolCalls && |record.tools| == record.toolCalls
    && forall i | 0 <= i < |record.tools| :: record.tools[i] in Names(tools)
  }

  predicate Faultless(step: Step) {
    && CallIds(step.calls) == OutcomeIds(step.outcomes) && Unique(OutcomeIds(step.outcomes))
    && (step.failed <==> AnyError(step.outcomes))
  }

  /** The result that belongs to a call: the fixed error for an input that is no object, or what the tool said to the
      call with this number. */
  function ResultOf(w: World, call: ToolCall, number: nat): Option<Json> {
    if call.input == None || !call.input.value.Object? then Some(INVALID_INPUT) else w.results(number)
  }

  function CallNames(calls: seq<ToolCall>): seq<string> {
    seq(|calls|, i requires 0 <= i < |calls| => calls[i].name)
  }

  /** The counts and the log after the first `n` calls of a turn. */
  function Logged(before: Record, calls: seq<ToolCall>, n: nat): Record
    requires n <= |calls|
  {
    Record(before.steps, before.toolCalls + n, before.tools + CallNames(calls[..n]))
  }

  /** The call may be made: listed, with an id that is new in its turn, within the limit, and the context is there. */
  predicate Clear(a: Arguments, w: World, tools: seq<Tool>, calls: seq<ToolCall>, before: Record, i: nat)
    requires i < |calls|
  {
    && calls[i].name in Names(tools) && calls[i].id !in CallIds(calls[..i])
    && before.toolCalls + i < a.toolCalls && !w.gone(before.steps, before.toolCalls + i)
  }

  /** Call `i` is made and answered. */
  predicate Answered(
      a: Arguments, w: World, tools: seq<Tool>, calls: seq<ToolCall>, before: Record, i: nat, raw: Option<Json>)
    requires i < |calls|
  {
    Clear(a, w, tools, calls, before, i) && raw.Some? && ResultOf(w, calls[i], before.toolCalls + i + 1) == raw
  }

  /** The first calls are made, and these are their outcomes. */
  predicate Made(
      a: Arguments, w: World, tools: seq<Tool>, calls: seq<ToolCall>, before: Record, outcomes: seq<ToolOutcome>)
  {
    && |outcomes| <= |calls|
    && OutcomeIds(outcomes) == CallIds(calls[..|outcomes|])
    && forall i | 0 <= i < |outcomes| :: Answered(a, w, tools, calls, before, i, Some(outcomes[i].raw))
  }

  /** Why a turn's calls end the run at the call after these outcomes, and what has been logged by then: not allowed or
      a repeated id, the limit, the context, or a tool that could not be called. */
  predicate EndsAt(
      a: Arguments, w: World, tools: seq<Tool>, calls: seq<ToolCall>, before: Record,
      outcomes: seq<ToolOutcome>, halt: Halt, record: Record)
  {
    var i := |outcomes|;
    && i < |calls| && Made(a, w, tools, calls, before, outcomes)
    && if calls[i].name !in Names(tools) || calls[i].id in CallIds(calls[..i])
       then halt == REJECTED && record == Logged(before, calls, i)
       else if before.toolCalls + i >= a.toolCalls
       then halt == Halt("limit", "tool_calls") && record == Logged(before, calls, i)
       else if w.gone(before.steps, before.toolCalls + i)
       then halt == Halt("cancelled", "") && record == Logged(before, calls, i)
       else halt == GATEWAY_ERROR && ResultOf(w, calls[i], before.toolCalls + i + 1) == None
            && record == Logged(before, calls, i + 1)
  }

  lemma MadeOne(
      a: Arguments, w: World, tools: seq<Tool>, calls: seq<ToolCall>, before: Record, outcomes: seq<ToolOutcome>, raw: Json)
    requires Made(a, w, tools, calls, before, outcomes) && |outcomes| < |calls|
    requires Answered(a, w, tools, calls, before, |outcomes|, Some(raw))
    ensures Made(a, w, tools, calls, before, outcomes + [ToolOutcome(calls[|outcomes|].id, raw)])
  {
    hide Answered;
    var n := |outcomes|;
    var b := calls[n];
    assert calls[..n + 1] == calls[..n] + [b];
    assert CallIds(calls[..n] + [b]) == CallIds(calls[..n]) + [b.id];
    assert OutcomeIds(outcomes + [ToolOutcome(b.id, raw)]) == OutcomeIds(outcomes) + [b.id];
  }

  lemma LoggedOne(before: Record, calls: seq<ToolCall>, n: nat)
    requires n < |calls|
    ensures var earlier := Logged(before, calls, n);
            Logged(before, calls, n + 1)
            == earlier.(toolCalls := earlier.toolCalls + 1, tools := earlier.tools + [calls[n].name])
  {
    assert calls[..n + 1] == calls[..n] + [calls[n]];
    assert CallNames(calls[..n] + [calls[n]]) == CallNames(calls[..n]) + [calls[n].name];
  }

  lemma UniqueGrows(outcomes: seq<ToolOutcome>, next: ToolOutcome)
    requires Unique(OutcomeIds(outcomes)) && next.id !in OutcomeIds(outcomes)
    ensures Unique(OutcomeIds(outcomes + [next])) && OutcomeIds(outcomes + [next]) == OutcomeIds(outcomes) + [next.id]
  {
    assert OutcomeIds(outcomes + [next]) == OutcomeIds(outcomes) + [next.id];
  }

  /** The calls of one turn, one after the other: each is allowed, counted, logged and then made, and one without an
      object as input gets a fixed error instead. */
  method CallTools(a: Arguments, w: World, tools: seq<Tool>, calls: seq<ToolCall>, before: Record)
    returns (r: Result<Step, Halt>, record: Record)
    requires WithinLimits(a, tools, before)
    ensures WithinLimits(a, tools, record) && record.steps == before.steps
    ensures r.Ok? ==> r.value.calls == calls && Faultless(r.value) && |r.value.outcomes| == |calls|
    ensures r.Ok? ==> Made(a, w, tools, calls, before, r.value.outcomes) && record == Logged(before, calls, |calls|)
    ensures r.Err? ==> exists outcomes :: EndsAt(a, w, tools, calls, before, outcomes, r.error, record)
    ensures r.Err? ==> r.error.end != "ok"
  {
    hide AnyError, IsError, Unique, Made, Logged;
    record := before;
    var outcomes: seq<ToolOutcome> := [];
    var ids: set<string> := {};
    var stepFailed := false;
    assert OutcomeIds(outcomes) == [];
    assert Made(a, w, tools, calls, before, []) && Unique([]) && record == Logged(before, calls, 0) && !AnyError([]) by {
      NothingMade(a, w, tools, calls, before);
    }
    for i := 0 to |calls|
      invariant |outcomes| == i && Made(a, w, tools, calls, before, outcomes) && Unique(OutcomeIds(outcomes))
      invariant record == Logged(before, calls, i) && WithinLimits(a, tools, record)
      invariant record.steps == before.steps && record.toolCalls == before.toolCalls + i
      invariant forall id :: id in ids <==> id in OutcomeIds(outcomes)
      invariant stepFailed <==> AnyError(outcomes)
    {
      var b := calls[i];
      MadeIds(a, w, tools, calls, before, outcomes);
      if b.name !in Names(tools) || b.id in ids {
        assert EndsAt(a, w, tools, calls, before, outcomes, REJECTED, record);
        return Err(REJECTED), record;
      }
      if record.toolCalls >= a.toolCalls {
        assert EndsAt(a, w, tools, calls, before, outcomes, Halt("limit", "tool_calls"), record);
        return Err(Halt("limit", "tool_calls")), record;
      }
      if w.gone(record.steps, record.toolCalls) {
        assert EndsAt(a, w, tools, calls, before, outcomes, Halt("cancelled", ""), record);
        return Err(Halt("cancelled", "")), record;
      }
      LoggedOne(before, calls, i);
      record := record.(toolCalls := record.toolCalls + 1, tools := record.tools + [b.name]);
      var raw := INVALID_INPUT;
      if b.input == None || !b.input.value.Object? {
        stepFailed := true;
        InvalidInputFails();
      } else {
        var called := w.results(record.toolCalls);
        if called == None {
          assert EndsAt(a, w, tools, calls, before, outcomes, GATEWAY_ERROR, record);
          return Err(GATEWAY_ERROR), record;
        }
        raw := called.value;
        stepFailed := stepFailed || IsError(raw);
      }
      MadeOne(a, w, tools, calls, before, outcomes, raw);
      ErrorsGrow(outcomes, ToolOutcome(b.id, raw));
      UniqueGrows(outcomes, ToolOutcome(b.id, raw));
      ids := ids + {b.id};
      outcomes := outcomes + [ToolOutcome(b.id, raw)];
    }
    MadeIds(a, w, tools, calls, before, outcomes);
    assert calls[..|calls|] == calls;
    r := Ok(Step(calls, outcomes, stepFailed));
  }

  lemma NothingMade(a: Arguments, w: World, tools: seq<Tool>, calls: seq<ToolCall>, before: Record)
    ensures Made(a, w, tools, calls, before, []) && Logged(before, calls, 0) == before
    ensures OutcomeIds([]) == [] && Unique([]) && !AnyError([])
  {
    assert calls[..0] == [];
  }

  lemma MadeIds(
      a: Arguments, w: World, tools: seq<Tool>, calls: seq<ToolCall>, before: Record, outcomes: seq<ToolOutcome>)
    requires Made(a, w, tools, calls, before, outcomes)
    ensures |outcomes| <= |calls| && OutcomeIds(outcomes) == CallIds(calls[..|outcomes|])
  {
  }

  lemma InvalidInputFails()
    ensures IsError(INVALID_INPUT)
  {
  }

  lemma ErrorsGrow(outcomes: seq<ToolOutcome>, next: ToolOutcome)
    ensures AnyError(outcomes + [next]) <==> AnyError(outcomes) || IsError(next.raw)
  {
    var all := outcomes + [next];
    assert all[|outcomes|] == next;
    if i :| 0 <= i < |outcomes| && IsError(outcomes[i].raw) {
      assert all[i] == outcomes[i];
    }
  }

  // ----- the run ---------------------------------------------------------------------------

  predicate LastFailed(steps: seq<Step>) {
    steps != [] && steps[|steps| - 1].failed
  }

  /** The final turn of a run that has said its last word. */
  predicate IsFinal(turn: Option<Turn>) {
    turn.Some? && turn.value.stop == "end_turn" && turn.value.calls == []
  }

  predicate Answerable(a: Arguments, tools: seq<Tool>) {
    !a.openAi || SchemasAreObjects(tools)
  }

  /** A request with every earlier tool call answered, and accepted by its own validator. */
  predicate Proper(a: Arguments, tools: seq<Tool>, request: Wire) {
    Open(request) == Some([]) && (Passes(request) <==> Answerable(a, tools))
  }

  /** A whole step, from one request to the next: the calls of the turn are answered in the history. */
  lemma RoundKeeps(
      a: Arguments, tools: seq<Tool>, wire: Wire, reply: HttpReply, codec: Codec, step: Step)
    requires Proper(a, tools, wire) && Exchanged(wire, reply, codec).1.Ok?
    requires Faultless(step) && step.calls == Exchanged(wire, reply, codec).1.value.calls
    ensures Answerable(a, tools)
    ensures var next := Appended(Exchanged(wire, reply, codec).0, step.outcomes, codec);
            Proper(a, tools, next) && Extends(wire, next)
  {
    assert Passes(wire) by { Sendings(wire, reply, codec); }
    TurnKeeps(wire, reply, codec);
    hide Exchanged, Appended, Passes, Open, Unique, AnyError;
    var grown, turn := Exchanged(wire, reply, codec).0, Exchanged(wire, reply, codec).1.value;
    forall i | 0 <= i < |step.outcomes| ensures step.outcomes[i].id != "" {
      assert OutcomeIds(step.outcomes)[i] == CallIds(turn.calls)[i] == turn.calls[i].id;
    }
    ResultsKeep(grown, step.outcomes, codec);
    ExtendsOn(wire, grown, Appended(grown, step.outcomes, codec));
  }

  /** Nothing is sent that the validator refuses, and no refusal or answer of the endpoint ends a run with "ok". */
  lemma Sendings(wire: Wire, reply: HttpReply, codec: Codec)
    ensures Exchanged(wire, reply, codec).1.Ok? ==> Passes(wire)
    ensures !Passes(wire) ==> Exchanged(wire, reply, codec).1 == Err(REJECTED)
    ensures Exchanged(wire, reply, codec).1.Err? ==> Exchanged(wire, reply, codec).1.error.end != "ok"
  {
    hide Anthropic.ValidContent, Anthropic.DecodeBlocks, OpenAi.ParseResponse, Anthropic.Validate, OpenAi.Validate,
         Anthropic.RequestJson, OpenAi.RequestJson, DecodeEnvelope, LimitDetail;
  }

  lemma ExtendsOn(first: Wire, second: Wire, third: Wire)
    requires Extends(first, second) && Extends(second, third)
    ensures Extends(first, third)
  {
  }

  /** Where a run has stopped. */
  datatype Stop =
    | NotConnected | NotListed(halt: Halt) | OutOfSteps | Gone
    | NoTurn(halt: Halt) | LastWord | TooLong | Unusable | InCalls(halt: Halt)

  /** The end that belongs to a stop. */
  function EndOf(stop: Stop, fate: Fate, turn: Option<Turn>, failed: bool): Outcome {
    match stop
    case NotConnected => Halted(fate, GATEWAY_ERROR)
    case NotListed(halt) => Halted(fate, halt)
    case OutOfSteps => Halted(fate, Halt("limit", "steps"))
    case Gone => Halted(fate, Halt("cancelled", ""))
    case NoTurn(halt) => Halted(fate, halt)
    case LastWord =>
      if failed then Halted(fate, Halt("error", "tools"))
      else Finish(fate, "ok", "", if turn.Some? then turn.value.text else "")
    case TooLong => Halted(fate, Halt("limit", "tokens_out"))
    case Unusable => Halted(fate, GATEWAY_ERROR)
    case InCalls(halt) => Halted(fate, halt)
  }

  // ----- the trace -------------------------------------------------------------------------

  /** The request after these steps: the first one, or the one before with the answer to it and its results. */
  function HistoryAfter(a: Arguments, w: World, tools: seq<Tool>, steps: seq<Step>): Wire {
    if steps == [] then Started(a, tools)
    else
      var n := |steps| - 1;
      Appended(Exchanged(HistoryAfter(a, w, tools, steps[..n]), w.replies(n + 1), w.codec).0, steps[n].outcomes, w.codec)
  }

  /** What the model says after these steps. */
  function AnswerAfter(a: Arguments, w: World, tools: seq<Tool>, steps: seq<Step>): Result<Turn, Halt> {
    Exchanged(HistoryAfter(a, w, tools, steps), w.replies(|steps| + 1), w.codec).1
  }

  function RecordAfter(steps: seq<Step>): (r: Record)
    ensures r.steps == |steps|
    decreases |steps|, 0
  {
    if steps == [] then Record(0, 0, [])
    else
      var n := |steps| - 1;
      Logged(Begun(steps[..n]), steps[n].calls, |steps[n].calls|)
  }

  /** The next step has begun. */
  function Begun(steps: seq<Step>): Record
    decreases |steps|, 1
  {
    var r := RecordAfter(steps);
    r.(steps := r.steps + 1)
  }

  /** Another step may begin. */
  predicate MayGoOn(a: Arguments, w: World, steps: seq<Step>) {
    |steps| < a.steps && !w.gone(|steps|, RecordAfter(steps).toolCalls)
  }

  /** The model wants tools. */
  predicate Wants(turn: Turn) {
    turn.stop == "tool_use" && turn.calls != []
  }

  /** A step after the earlier ones: the answer to the next request wants tools, all its calls are made, and these are
      their outcomes. */
  predicate Follows(a: Arguments, w: World, tools: seq<Tool>, earlier: seq<Step>, step: Step) {
    && MayGoOn(a, w, earlier)
    && AnswerAfter(a, w, tools, earlier).Ok? && Wants(AnswerAfter(a, w, tools, earlier).value)
    && step.calls == AnswerAfter(a, w, tools, earlier).value.calls && |step.outcomes| == |step.calls|
    && Made(a, w, tools, step.calls, Begun(earlier), step.outcomes) && Faultless(step)
  }

  predicate Linked(a: Arguments, w: World, tools: seq<Tool>, steps: seq<Step>) {
    forall k | 0 <= k < |steps| :: Follows(a, w, tools, steps[..k], steps[k])
  }

  /** The last answer that could be read before the next request. */
  function TurnBefore(a: Arguments, w: World, tools: seq<Tool>, steps: seq<Step>): Option<Turn> {
    if steps == [] then None
    else
      match AnswerAfter(a, w, tools, steps[..|steps| - 1])
      case Ok(turn) => Some(turn)
      case Err(_) => None
  }

  /** The run stops after these steps: why, with which answer, and with what on record. */
  ghost predicate StopsAfter(
      a: Arguments, w: World, tools: seq<Tool>, steps: seq<Step>, record: Record, turn: Option<Turn>, stop: Stop)
  {
    var answer := AnswerAfter(a, w, tools, steps);
    match stop
    case NotConnected => false
    case NotListed(_) => false
    case OutOfSteps => |steps| == a.steps && record == RecordAfter(steps) && turn == TurnBefore(a, w, tools, steps)
    case Gone =>
      && |steps| < a.steps && w.gone(|steps|, RecordAfter(steps).toolCalls)
      && record == RecordAfter(steps) && turn == TurnBefore(a, w, tools, steps)
    case NoTurn(halt) =>
      && MayGoOn(a, w, steps) && answer == Err(halt)
      && record == Begun(steps) && turn == TurnBefore(a, w, tools, steps)
    case LastWord => MayGoOn(a, w, steps) && record == Begun(steps) && Said(answer, turn) && IsFinal(turn)
    case TooLong =>
      MayGoOn(a, w, steps) && record == Begun(steps) && Said(answer, turn) && turn.value.stop == "max_tokens"
    case Unusable =>
      && MayGoOn(a, w, steps) && record == Begun(steps) && Said(answer, turn)
      && !IsFinal(turn) && turn.value.stop != "max_tokens" && !Wants(turn.value)
    case InCalls(halt) =>
      && MayGoOn(a, w, steps) && Said(answer, turn) && Wants(turn.value)
      && exists outcomes :: EndsAt(a, w, tools, turn.value.calls, Begun(steps), outcomes, halt, record)
  }

  predicate Said(answer: Result<Turn, Halt>, turn: Option<Turn>) {
    turn.Some? && answer == Ok(turn.value)
  }

  /** The requests are the history at the beginning of every step. */
  predicate Requested(a: Arguments, w: World, tools: seq<Tool>, steps: seq<Step>, requests: seq<Wire>) {
    |requests| <= |steps| + 1 && forall i | 0 <= i < |requests| :: requests[i] == HistoryAfter(a, w, tools, steps[..i])
  }

  /** What the loop has done, from the first request to the stop. */
  ghost predicate Walked(
      a: Arguments, w: World, tools: seq<Tool>, steps: seq<Step>, record: Record, requests: seq<Wire>, turn: Option<Turn>,
      stop: Stop)
  {
    && Linked(a, w, tools, steps) && StopsAfter(a, w, tools, steps, record, turn, stop)
    && Requested(a, w, tools, steps, requests) && |requests| == record.steps
  }

  /** What a run has done, from the connection to the stop. */
  ghost predicate Trace(
      a: Arguments, w: World, tools: seq<Tool>, steps: seq<Step>, record: Record, requests: seq<Wire>, turn: Option<Turn>,
      stop: Stop)
  {
    match stop
    case NotConnected => !w.connects && Nothing(tools, steps, record, requests, turn)
    case NotListed(halt) =>
      w.connects && Nothing(tools, steps, record, requests, turn) && exists n: nat :: BreaksAt(w, n, halt)
    case _ =>
      && w.connects && (exists n: nat :: EndsWith(w, n) && tools == Collected(w, n + 1))
      && Walked(a, w, tools, steps, record, requests, turn, stop)
  }

  predicate Nothing(tools: seq<Tool>, steps: seq<Step>, record: Record, requests: seq<Wire>, turn: Option<Turn>) {
    tools == [] && steps == [] && record == Record(0, 0, []) && requests == [] && turn == None
  }

  lemma LinkedOne(a: Arguments, w: World, tools: seq<Tool>, steps: seq<Step>, step: Step)
    requires Linked(a, w, tools, steps) && Follows(a, w, tools, steps, step)
    ensures Linked(a, w, tools, steps + [step])
  {
    hide Follows;
    var all := steps + [step];
    forall k | 0 <= k < |all| ensures Follows(a, w, tools, all[..k], all[k]) {
      assert k < |steps| ==> all[..k] == steps[..k];
      assert k == |steps| ==> all[..k] == steps;
    }
  }

  lemma RequestedOne(a: Arguments, w: World, tools: seq<Tool>, steps: seq<Step>, requests: seq<Wire>, step: Step)
    requires Requested(a, w, tools, steps, requests)
    ensures Requested(a, w, tools, steps + [step], requests)
    ensures |requests| == |steps| ==> Requested(a, w, tools, steps, requests + [HistoryAfter(a, w, tools, steps)])
  {
    hide HistoryAfter;
    assert steps[..|steps|] == steps;
    assert forall i | 0 <= i <= |steps| :: (steps + [step])[..i] == steps[..i];
  }

  lemma RequestedAlso(a: Arguments, w: World, tools: seq<Tool>, steps: seq<Step>, requests: seq<Wire>, step: Step)
    requires Requested(a, w, tools, steps, requests) && |requests| == |steps|
    ensures Requested(a, w, tools, steps + [step], requests + [HistoryAfter(a, w, tools, steps)])
  {
    hide Requested, HistoryAfter;
    RequestedOne(a, w, tools, steps, requests, step);
    RequestedOne(a, w, tools, steps, requests + [HistoryAfter(a, w, tools, steps)], step);
  }

  lemma StepTaken(a: Arguments, w: World, tools: seq<Tool>, steps: seq<Step>, step: Step)
    requires Follows(a, w, tools, steps, step)
    ensures var all := steps + [step];
            && RecordAfter(all) == Logged(Begun(steps), step.calls, |step.calls|)
            && TurnBefore(a, w, tools, all) == Some(AnswerAfter(a, w, tools, steps).value)
            && HistoryAfter(a, w, tools, all)
               == Appended(Exchanged(HistoryAfter(a, w, tools, steps), w.replies(|all|), w.codec).0, step.outcomes, w.codec)
  {
    hide Made, Faultless, Exchanged, Appended, Logged;
    assert (steps + [step])[..|steps|] == steps;
  }

  // ----- one world, one run ----------------------------------------------------------------

  lemma OutcomesAre(
      a: Arguments, w: World, tools: seq<Tool>, calls: seq<ToolCall>, before: Record, one: seq<ToolOutcome>,
      other: seq<ToolOutcome>)
    requires Made(a, w, tools, calls, before, one) && Made(a, w, tools, calls, before, other) && |one| <= |other|
    ensures one == other[..|one|]
  {
    hide ResultOf, Clear;
    forall i | 0 <= i < |one| ensures one[i] == other[i] {
      assert one[i].id == OutcomeIds(one)[i] == calls[i].id;
      assert other[i].id == OutcomeIds(other)[i] == calls[i].id;
    }
  }

  lemma OneStep(a: Arguments, w: World, tools: seq<Tool>, earlier: seq<Step>, one: Step, other: Step)
    requires Follows(a, w, tools, earlier, one) && Follows(a, w, tools, earlier, other)
    ensures one == other
  {
    hide Made, AnswerAfter, RecordAfter, AnyError;
    OutcomesAre(a, w, tools, one.calls, Begun(earlier), one.outcomes, other.outcomes);
    assert other.outcomes[..|one.outcomes|] == other.outcomes;
  }

  lemma {:induction false} SamePrefix(a: Arguments, w: World, tools: seq<Tool>, one: seq<Step>, other: seq<Step>, n: nat)
    requires Linked(a, w, tools, one) && Linked(a, w, tools, other) && n <= |one| && n <= |other|
    ensures one[..n] == other[..n]
  {
    hide Follows;
    if n > 0 {
      SamePrefix(a, w, tools, one, other, n - 1);
      OneStep(a, w, tools, one[..n - 1], one[n - 1], other[n - 1]);
      assert one[..n] == one[..n - 1] + [one[n - 1]] && other[..n] == other[..n - 1] + [other[n - 1]];
    }
  }

  /** A turn whose calls are all made does not end the run, and one that ends it does so in one way. */
  lemma OneEnd(
      a: Arguments, w: World, tools: seq<Tool>, calls: seq<ToolCall>, before: Record, one: seq<ToolOutcome>,
      other: seq<ToolOutcome>, halt: Halt, record: Record)
    requires EndsAt(a, w, tools, calls, before, one, halt, record) && Made(a, w, tools, calls, before, other)
    ensures |other| <= |one|
  {
    hide Answered, EndsAt;
    if |one| < |other| {
      NotAnswered(a, w, tools, calls, before, one, Some(other[|one|].raw), halt, record);
    }
  }

  lemma NotAnswered(
      a: Arguments, w: World, tools: seq<Tool>, calls: seq<ToolCall>, before: Record, outcomes: seq<ToolOutcome>,
      raw: Option<Json>, halt: Halt, record: Record)
    requires EndsAt(a, w, tools, calls, before, outcomes, halt, record)
    ensures |outcomes| < |calls| && !Answered(a, w, tools, calls, before, |outcomes|, raw)
  {
  }

  lemma EndsAlike(
      a: Arguments, w: World, tools: seq<Tool>, calls: seq<ToolCall>, before: Record, one: seq<ToolOutcome>,
      other: seq<ToolOutcome>, halt: Halt, record: Record, otherHalt: Halt, otherRecord: Record)
    requires EndsAt(a, w, tools, calls, before, one, halt, record)
    requires EndsAt(a, w, tools, calls, before, other, otherHalt, otherRecord)
    ensures halt == otherHalt && record == otherRecord
  {
    OneEnd(a, w, tools, calls, before, one, other, halt, record);
    OneEnd(a, w, tools, calls, before, other, one, otherHalt, otherRecord);
    hide Made, Logged, ResultOf;
  }

  lemma NoStepAfterTheStop(
      a: Arguments, w: World, tools: seq<Tool>, steps: seq<Step>, record: Record, turn: Option<Turn>, stop: Stop, step: Step)
    requires StopsAfter(a, w, tools, steps, record, turn, stop)
    ensures !Follows(a, w, tools, steps, step)
  {
    hide AnswerAfter, RecordAfter, EndsAt, Made, Faultless, TurnBefore;
    if Follows(a, w, tools, steps, step) && stop.InCalls? {
      var outcomes :| EndsAt(a, w, tools, turn.value.calls, Begun(steps), outcomes, stop.halt, record);
      OneEnd(a, w, tools, turn.value.calls, Begun(steps), outcomes, step.outcomes, stop.halt, record);
      EndsWithin(a, w, tools, turn.value.calls, Begun(steps), outcomes, stop.halt, record);
    }
  }

  lemma EndsWithin(
      a: Arguments, w: World, tools: seq<Tool>, calls: seq<ToolCall>, before: Record, outcomes: seq<ToolOutcome>,
      halt: Halt, record: Record)
    requires EndsAt(a, w, tools, calls, before, outcomes, halt, record)
    ensures |outcomes| < |calls|
  {
  }

  lemma OneStop(
      a: Arguments, w: World, tools: seq<Tool>, steps: seq<Step>, record: Record, turn: Option<Turn>, stop: Stop,
      otherRecord: Record, otherTurn: Option<Turn>, otherStop: Stop)
    requires StopsAfter(a, w, tools, steps, record, turn, stop)
    requires StopsAfter(a, w, tools, steps, otherRecord, otherTurn, otherStop)
    ensures record == otherRecord && turn == otherTurn && stop == otherStop
  {
    hide AnswerAfter, RecordAfter, EndsAt, TurnBefore;
    if stop.InCalls? && otherStop.InCalls? {
      var calls, before := turn.value.calls, Begun(steps);
      var one :| EndsAt(a, w, tools, calls, before, one, stop.halt, record);
      var other :| EndsAt(a, w, tools, calls, before, other, otherStop.halt, otherRecord);
      EndsAlike(a, w, tools, calls, before, one, other, stop.halt, record, otherStop.halt, otherRecord);
    }
  }

  lemma OneWalk(
      a: Arguments, w: World, tools: seq<Tool>, steps: seq<Step>, record: Record, requests: seq<Wire>, turn: Option<Turn>,
      stop: Stop, otherSteps: seq<Step>, otherRecord: Record, otherRequests: seq<Wire>, otherTurn: Option<Turn>,
      otherStop: Stop)
    requires Walked(a, w, tools, steps, record, requests, turn, stop)
    requires Walked(a, w, tools, otherSteps, otherRecord, otherRequests, otherTurn, otherStop)
    ensures steps == otherSteps && record == otherRecord && requests == otherRequests
    ensures turn == otherTurn && stop == otherStop
  {
    hide Follows, StopsAfter, HistoryAfter;
    var n := if |steps| < |otherSteps| then |steps| else |otherSteps|;
    SamePrefix(a, w, tools, steps, otherSteps, n);
    assert steps[..|steps|] == steps && otherSteps[..|otherSteps|] == otherSteps;
    if n < |otherSteps| {
      NoStepAfterTheStop(a, w, tools, steps, record, turn, stop, otherSteps[n]);
    }
    if n < |steps| {
      NoStepAfterTheStop(a, w, tools, otherSteps, otherRecord, otherTurn, otherStop, steps[n]);
    }
    OneStop(a, w, tools, steps, record, turn, stop, otherRecord, otherTurn, otherStop);
  }

  /** The trace is the world's: what a run has listed, sent, called and recorded, and where it has stopped, follows from
      its arguments and from what the outside contributes. */
  lemma OneTrace(
      a: Arguments, w: World, tools: seq<Tool>, steps: seq<Step>, record: Record, requests: seq<Wire>, turn: Option<Turn>,
      stop: Stop, otherTools: seq<Tool>, otherSteps: seq<Step>, otherRecord: Record, otherRequests: seq<Wire>,
      otherTurn: Option<Turn>, otherStop: Stop)
    requires Trace(a, w, tools, steps, record, requests, turn, stop)
    requires Trace(a, w, otherTools, otherSteps, otherRecord, otherRequests, otherTurn, otherStop)
    ensures tools == otherTools && steps == otherSteps && record == otherRecord && requests == otherRequests
    ensures turn == otherTurn && stop == otherStop
  {
    hide Walked, EndsWith, BreaksAt, Collected;
    if w.connects {
      if stop.NotListed? {
        var n: nat :| BreaksAt(w, n, stop.halt);
        if otherStop.NotListed? {
          var m: nat :| BreaksAt(w, m, otherStop.halt);
          OneListing(w, n, m, stop.halt, otherStop.halt);
        } else {
          var m: nat :| EndsWith(w, m) && otherTools == Collected(w, m + 1);
          OneListing(w, m, n, stop.halt, stop.halt);
        }
      } else {
        var n: nat :| EndsWith(w, n) && tools == Collected(w, n + 1);
        if otherStop.NotListed? {
          var m: nat :| BreaksAt(w, m, otherStop.halt);
          OneListing(w, n, m, otherStop.halt, otherStop.halt);
        } else {
          var m: nat :| EndsWith(w, m) && otherTools == Collected(w, m + 1);
          OneListing(w, n, m, GATEWAY_ERROR, GATEWAY_ERROR);
          OneWalk(a, w, tools, steps, record, requests, turn, stop, otherSteps, otherRecord, otherRequests, otherTurn, otherStop);
        }
      }
    }
  }

  // ----- what the model has said -----------------------------------------------------------

  /** Every request of a run has the form that was asked for. */
  lemma {:induction false} FormStays(a: Arguments, w: World, tools: seq<Tool>, steps: seq<Step>)
    ensures HistoryAfter(a, w, tools, steps).Completions? <==> a.openAi
    decreases |steps|
  {
    if steps == [] {
      FirstRequestSays(a, tools);
    } else {
      var n := |steps| - 1;
      FormStays(a, w, tools, steps[..n]);
      FormOfExchange(HistoryAfter(a, w, tools, steps[..n]), w.replies(n + 1), w.codec, steps[n].outcomes);
    }
  }

  lemma FormOfExchange(wire: Wire, reply: HttpReply, codec: Codec, outcomes: seq<ToolOutcome>)
    ensures Appended(Exchanged(wire, reply, codec).0, outcomes, codec).Completions? <==> wire.Completions?
  {
    hide Passes, ModelBody, OpenAi.NextTurn, Anthropic.NextTurn;
  }

  /** The run has stopped on an answer of the model. */
  predicate OnAnswer(stop: Stop) {
    stop.LastWord? || stop.TooLong? || stop.Unusable? || stop.InCalls?
  }

  /** The last word of a run is a complete answer of the model that says so, and a run is cut off exactly if its last
      answer says that. */
  lemma StopIsSaid(
      a: Arguments, w: World, tools: seq<Tool>, steps: seq<Step>, record: Record, turn: Option<Turn>, stop: Stop)
    returns (answer: Json)
    requires StopsAfter(a, w, tools, steps, record, turn, stop) && OnAnswer(stop)
    ensures Delivers(w.replies(|steps| + 1), answer)
    ensures turn.Some?
    ensures stop.LastWord? <==> LastWordSaid(a.openAi, answer, turn.value.text)
    ensures stop.TooLong? <==> CutOffSaid(a.openAi, answer)
    ensures stop.InCalls? <==> ToolsAsked(a.openAi, answer)
  {
    hide HistoryAfter, Exchanged, RecordAfter, LastWordSaid, CutOffSaid, ToolsAsked, Delivers, EndsAt, TurnBefore;
    FormStays(a, w, tools, steps);
    answer := TurnIsDelivered(HistoryAfter(a, w, tools, steps), w.replies(|steps| + 1), w.codec);
  }

  /** A run goes on with the calls of an answer only if that answer asks for tools. */
  lemma StepsAreAsked(a: Arguments, w: World, tools: seq<Tool>, earlier: seq<Step>, step: Step) returns (answer: Json)
    requires Follows(a, w, tools, earlier, step)
    ensures Delivers(w.replies(|earlier| + 1), answer) && ToolsAsked(a.openAi, answer)
  {
    hide HistoryAfter, Exchanged, RecordAfter, LastWordSaid, CutOffSaid, ToolsAsked, Delivers, Made, AnyError;
    FormStays(a, w, tools, earlier);
    answer := TurnIsDelivered(HistoryAfter(a, w, tools, earlier), w.replies(|earlier| + 1), w.codec);
  }

  lemma {:induction false} RecordSteps(a: Arguments, w: World, tools: seq<Tool>, steps: seq<Step>, record: Record,
      turn: Option<Turn>, stop: Stop)
    requires StopsAfter(a, w, tools, steps, record, turn, stop) && OnAnswer(stop)
    ensures record.steps == |steps| + 1
  {
    hide AnswerAfter, Made, TurnBefore;
    if stop.InCalls? {
      var outcomes :| EndsAt(a, w, tools, turn.value.calls, Begun(steps), outcomes, stop.halt, record);
    }
  }

  /** What the run says about its end is what the model has said. */
  ghost predicate EndIsSaid(a: Arguments, w: World, record: Record, stop: Stop, text: string) {
    OnAnswer(stop) ==>
      exists answer ::
        && Delivers(w.replies(record.steps), answer)
        && (stop.LastWord? <==> LastWordSaid(a.openAi, answer, text))
        && (stop.TooLong? <==> CutOffSaid(a.openAi, answer))
        && (stop.InCalls? <==> ToolsAsked(a.openAi, answer))
  }

  lemma TraceIsSaid(
      a: Arguments, w: World, tools: seq<Tool>, steps: seq<Step>, record: Record, requests: seq<Wire>, turn: Option<Turn>,
      stop: Stop)
    requires Trace(a, w, tools, steps, record, requests, turn, stop)
    ensures EndIsSaid(a, w, record, stop, if turn.Some? then turn.value.text else "")
  {
    hide StopsAfter, LastWordSaid, CutOffSaid, ToolsAsked, Delivers, Linked, Requested, EndsWith, BreaksAt, Collected;
    if OnAnswer(stop) {
      var answer := StopIsSaid(a, w, tools, steps, record, turn, stop);
      RecordSteps(a, w, tools, steps, record, turn, stop);
    }
  }

  /** A call whose input is no object is answered with the fixed error, whatever the tools would say, and any other with
      what its tool has said; a step has failed exactly if one of its answers is marked as an error. */
  lemma AnswersOfCalls(a: Arguments, w: World, tools: seq<Tool>, earlier: seq<Step>, step: Step, i: nat)
    requires Follows(a, w, tools, earlier, step) && i < |step.calls|
    ensures i < |step.outcomes| && step.outcomes[i].id == step.calls[i].id
    ensures step.calls[i].input.Some? && step.calls[i].input.value.Object? ==>
              w.results(RecordAfter(earlier).toolCalls + i + 1) == Some(step.outcomes[i].raw)
    ensures !(step.calls[i].input.Some? && step.calls[i].input.value.Object?) ==> step.outcomes[i].raw == INVALID_INPUT
    ensures step.failed <==> exists k | 0 <= k < |step.outcomes| :: MarkedAsError(step.outcomes[k].raw)
  {
    hide AnswerAfter, RecordAfter, Clear;
    assert Answered(a, w, tools, step.calls, Begun(earlier), i, Some(step.outcomes[i].raw));
    assert OutcomeIds(step.outcomes)[i] == CallIds(step.calls)[i];
  }

  /** The fixed error is a result of the tool protocol: one text, and marked. */
  lemma FixedErrorIsAResult()
    ensures MarkedAsError(INVALID_INPUT)
    ensures ProtocolResult(INVALID_INPUT, [map["type" := Text("text"),
                                               "text" := Text("Werkzeug-Eingabe ist kein gültiges JSON-Objekt.")]], None, true)
  {
    hide Get;
    assert Get(INVALID_INPUT.members, "structuredContent") == None by { NoStructure(); }
    assert Get(INVALID_INPUT.members, "isError") == Some(Bool(true)) by { NoStructure(); }
    ContentOfError();
  }

  lemma NoStructure()
    ensures Get(INVALID_INPUT.members, "structuredContent") == None
    ensures Get(INVALID_INPUT.members, "isError") == Some(Bool(true))
  {
    assert "structuredContent"[0] == 's';
  }

  lemma ContentOfError()
    ensures var items := [map["type" := Text("text"), "text" := Text("Werkzeug-Eingabe ist kein gültiges JSON-Objekt.")]];
            Get(INVALID_INPUT.members, "content")
            == Some(List(seq(|items|, i requires 0 <= i < |items| => Object(items[i]))))
  {
    var items := [map["type" := Text("text"), "text" := Text("Werkzeug-Eingabe ist kein gültiges JSON-Objekt.")]];
    var objects := seq(|items|, i requires 0 <= i < |items| => Object(items[i]));
    assert objects == [Object(items[0])];
    assert Get(INVALID_INPUT.members, "content") == Some(List([Object(items[0])]));
  }

  predicate MarkedAsError(raw: Json) {
    raw.Object? && "isError" in raw.members && raw.members["isError"] == Bool(true)
  }

  /** How a run is reported: by the state of the context first, and else by where it has stopped. */
  lemma EndsByName(stop: Stop, fate: Fate, turn: Option<Turn>, failed: bool)
    ensures fate == Revoked ==> EndOf(stop, fate, turn, failed) == Outcome("revoked", "", "")
    ensures fate == TimedOut ==> EndOf(stop, fate, turn, failed) == Outcome("limit", "wall", "")
    ensures fate == CalledOff ==> EndOf(stop, fate, turn, failed) == Outcome("cancelled", "", "")
    ensures fate == Alive ==>
              EndOf(stop, fate, turn, failed)
              == match stop
                 case NotConnected => Outcome("error", "gateway", "")
                 case OutOfSteps => Outcome("limit", "steps", "")
                 case Gone => Outcome("cancelled", "", "")
                 case TooLong => Outcome("limit", "tokens_out", "")
                 case Unusable => Outcome("error", "gateway", "")
                 case LastWord =>
                   if failed then Outcome("error", "tools", "") else Outcome("ok", "", if turn.Some? then turn.value.text else "")
                 case NotListed(halt) => Outcome(halt.end, halt.detail, "")
                 case NoTurn(halt) => Outcome(halt.end, halt.detail, "")
                 case InCalls(halt) => Outcome(halt.end, halt.detail, "")
  {
  }

  /** No stop but the last word ends a run with "ok". */
  predicate Sober(stop: Stop) {
    match stop
    case NotListed(halt) => halt.end != "ok"
    case NoTurn(halt) => halt.end != "ok"
    case InCalls(halt) => halt.end != "ok"
    case _ => true
  }

  lemma OnlyTheLastWordIsOk(stop: Stop, fate: Fate, turn: Option<Turn>, failed: bool)
    requires Sober(stop) && (stop.LastWord? ==> turn.Some?)
    ensures EndOf(stop, fate, turn, failed).end == "ok" <==> fate == Alive && stop.LastWord? && !failed
    ensures EndOf(stop, fate, turn, failed).end == "ok" ==> EndOf(stop, fate, turn, failed) == Outcome("ok", "", turn.value.text)
  {
  }

  /** The requests built so far: each is proper and repeats the one before, and a second one is only built if the tools
      let any request pass. */
  predicate Chained(a: Arguments, tools: seq<Tool>, requests: seq<Wire>) {
    && (forall i | 0 <= i < |requests| :: Proper(a, tools, requests[i]))
    && (forall i | 0 < i < |requests| :: Extends(requests[i - 1], requests[i]))
    && (|requests| > 1 ==> Answerable(a, tools))
  }

  /** The loop at the beginning of a step. */
  predicate Standing(
      a: Arguments, w: World, tools: seq<Tool>, steps: seq<Step>, record: Record, requests: seq<Wire>, turn: Option<Turn>,
      wire: Wire)
  {
    && Linked(a, w, tools, steps) && Requested(a, w, tools, steps, requests)
    && record == RecordAfter(steps) && |requests| == |steps| && turn == TurnBefore(a, w, tools, steps)
    && wire == HistoryAfter(a, w, tools, steps) && Chained(a, tools, requests + [wire])
  }

  lemma StandsFirst(a: Arguments, w: World, tools: seq<Tool>)
    requires Listing(tools)
    ensures Standing(a, w, tools, [], Record(0, 0, []), [], None, Started(a, tools))
  {
    hide Passes, Open, Extends, SchemasAreObjects, Started;
    StartIsComplete(a, tools);
    assert [] + [Started(a, tools)] == [Started(a, tools)];
  }

  /** The request of a step is built from the history. */
  lemma Asked(
      a: Arguments, w: World, tools: seq<Tool>, steps: seq<Step>, record: Record, requests: seq<Wire>, turn: Option<Turn>,
      wire: Wire)
    requires Standing(a, w, tools, steps, record, requests, turn, wire)
    ensures Requested(a, w, tools, steps, requests + [wire]) && |requests| == |steps| == record.steps
    ensures record.(steps := record.steps + 1) == Begun(steps)
  {
    hide HistoryAfter, Linked, Chained, TurnBefore;
    RequestedOne(a, w, tools, steps, requests, Step([], [], false));
  }

  /** A whole step leads from one beginning to the next. */
  lemma Stepped(
      a: Arguments, w: World, tools: seq<Tool>, steps: seq<Step>, record: Record, requests: seq<Wire>, turn: Option<Turn>,
      wire: Wire, step: Step)
    requires Standing(a, w, tools, steps, record, requests, turn, wire) && Follows(a, w, tools, steps, step)
    ensures Standing(a, w, tools, steps + [step], Logged(Begun(steps), step.calls, |step.calls|), requests + [wire],
                     Some(AnswerAfter(a, w, tools, steps).value),
                     Appended(Exchanged(wire, w.replies(|steps| + 1), w.codec).0, step.outcomes, w.codec))
  {
    hide Proper, Extends, Made, Faultless, Exchanged, Appended, Logged, HistoryAfter, RecordAfter, Linked, Requested,
         TurnBefore, Answerable, Follows, Chained, AnswerAfter;
    FollowsMeans(a, w, tools, steps, step);
    assert Proper(a, tools, wire) by { LastIsProper(a, tools, requests, wire); }
    RoundKeeps(a, tools, wire, w.replies(|steps| + 1), w.codec, step);
    LinkedOne(a, w, tools, steps, step);
    RequestedAlso(a, w, tools, steps, requests, step);
    StepTaken(a, w, tools, steps, step);
    ChainedOne(a, tools, requests, wire, Appended(Exchanged(wire, w.replies(|steps| + 1), w.codec).0, step.outcomes, w.codec));
  }

  lemma FollowsMeans(a: Arguments, w: World, tools: seq<Tool>, earlier: seq<Step>, step: Step)
    requires Follows(a, w, tools, earlier, step)
    ensures Exchanged(HistoryAfter(a, w, tools, earlier), w.replies(|earlier| + 1), w.codec).1 == AnswerAfter(a, w, tools, earlier)
    ensures AnswerAfter(a, w, tools, earlier).Ok? && Faultless(step)
    ensures step.calls == AnswerAfter(a, w, tools, earlier).value.calls
  {
    hide Exchanged, HistoryAfter, Made, Faultless, RecordAfter;
  }

  lemma LastIsProper(a: Arguments, tools: seq<Tool>, requests: seq<Wire>, wire: Wire)
    requires Chained(a, tools, requests + [wire])
    ensures Proper(a, tools, wire)
  {
    hide Proper, Extends;
    assert (requests + [wire])[|requests|] == wire;
  }

  lemma ChainedOne(a: Arguments, tools: seq<Tool>, requests: seq<Wire>, wire: Wire, next: Wire)
    requires Chained(a, tools, requests + [wire]) && Proper(a, tools, next) && Extends(wire, next) && Answerable(a, tools)
    ensures Chained(a, tools, requests + [wire] + [next])
  {
    hide Proper, Extends;
    var all := requests + [wire] + [next];
    forall i | 0 < i < |all| ensures Extends(all[i - 1], all[i]) {
      if i <= |requests| {
        assert all[i - 1] == (requests + [wire])[i - 1] && all[i] == (requests + [wire])[i];
      }
    }
  }

  /** The bounded loop of `run`. */
  method Steps(a: Arguments, w: World, tools: seq<Tool>)
    returns (record: Record, requests: seq<Wire>, steps: seq<Step>, turn: Option<Turn>, stop: Stop)
    requires Listing(tools)
    ensures Walked(a, w, tools, steps, record, requests, turn, stop)
    ensures WithinLimits(a, tools, record) && Chained(a, tools, requests)
    ensures Sober(stop) && (IsFinal(turn) <==> stop.LastWord?)
    ensures !Answerable(a, tools) && requests != [] ==> |requests| == 1 && stop == NoTurn(REJECTED)
  {
    hide Listing, Started, Proper, Extends, Exchanged, Appended, EndsAt, Faultless, Made, HistoryAfter, RecordAfter, Follows,
         Linked, Requested, Logged, TurnBefore, Standing, Chained, Answerable;
    record, requests, steps, turn := Record(0, 0, []), [], [], None;
    var history := new Conversation(a, tools, w.codec);
    StandsFirst(a, w, tools);
    while record.steps < a.steps
      invariant WithinLimits(a, tools, record) && record.steps == |steps|
      invariant Standing(a, w, tools, steps, record, requests, turn, history.wire)
      invariant history.codec == w.codec && !IsFinal(turn)
      decreases a.steps - record.steps
    {
      StandsMeans(a, w, tools, steps, record, requests, turn, history.wire);
      if w.gone(record.steps, record.toolCalls) {
        stop := Gone;
        return;
      }
      Asked(a, w, tools, steps, record, requests, turn, history.wire);
      record := record.(steps := record.steps + 1);
      requests := requests + [history.wire];
      var answer := history.Next(w.replies(record.steps));
      if answer.Err? {
        stop := NoTurn(answer.error);
        return;
      }
      turn := Some(answer.value);
      if IsFinal(turn) {
        stop := LastWord;
        return;
      }
      if answer.value.stop == "max_tokens" {
        stop := TooLong;
        return;
      }
      if answer.value.stop != "tool_use" || answer.value.calls == [] {
        stop := Unusable;
        return;
      }
      var called;
      called, record := CallTools(a, w, tools, answer.value.calls, record);
      if called.Err? {
        stop := InCalls(called.error);
        return;
      }
      assert Follows(a, w, tools, steps, called.value) by { FollowsIf(a, w, tools, steps, called.value); }
      Stepped(a, w, tools, steps, RecordAfter(steps), requests[..|steps|], TurnBefore(a, w, tools, steps), requests[|steps|], called.value);
      steps := steps + [called.value];
      history.AppendResults(called.value.outcomes);
    }
    StandsMeans(a, w, tools, steps, record, requests, turn, history.wire);
    stop := OutOfSteps;
  }

  lemma StandsMeans(
      a: Arguments, w: World, tools: seq<Tool>, steps: seq<Step>, record: Record, requests: seq<Wire>, turn: Option<Turn>,
      wire: Wire)
    requires Standing(a, w, tools, steps, record, requests, turn, wire)
    ensures Linked(a, w, tools, steps) && Requested(a, w, tools, steps, requests) && |requests| == |steps|
    ensures record == RecordAfter(steps) && turn == TurnBefore(a, w, tools, steps) && wire == HistoryAfter(a, w, tools, steps)
    ensures Chained(a, tools, requests) && Chained(a, tools, requests + [wire])
    ensures var answer := Exchanged(wire, w.replies(record.steps + 1), w.codec).1;
            && (requests != [] ==> Answerable(a, tools)) && |requests + [wire]| == |requests| + 1
            && (answer.Err? ==> answer.error.end != "ok")
            && (!Answerable(a, tools) ==> answer == Err(REJECTED))
  {
    hide Linked, Requested, RecordAfter, TurnBefore, HistoryAfter, Exchanged, Extends, Answerable, Passes, Open;
    Sendings(wire, w.replies(record.steps + 1), w.codec);
    var all := requests + [wire];
    assert all[|requests|] == wire;
    forall i | 0 <= i < |requests| ensures all[i] == requests[i] {
    }
  }

  lemma FollowsIf(a: Arguments, w: World, tools: seq<Tool>, earlier: seq<Step>, step: Step)
    requires MayGoOn(a, w, earlier) && Faultless(step)
    requires AnswerAfter(a, w, tools, earlier).Ok? && Wants(AnswerAfter(a, w, tools, earlier).value)
    requires step.calls == AnswerAfter(a, w, tools, earlier).value.calls && |step.outcomes| == |step.calls|
    requires Made(a, w, tools, step.calls, Begun(earlier), step.outcomes)
    ensures Follows(a, w, tools, earlier, step)
  {
  }

  /** `run`.  `requests` are all requests the run has built, sent or not; `steps` its finished tool steps; `turn` the
      last answer it could read; `stop` where it stopped. */
  method Run(a: Arguments, w: World)
    returns (
      out: Outcome, record: Record, tools: seq<Tool>, requests: seq<Wire>, steps: seq<Step>, turn: Option<Turn>, stop: Stop)
    ensures Trace(a, w, tools, steps, record, requests, turn, stop)
    ensures WithinLimits(a, tools, record) && Listing(tools)
    ensures |requests| == record.steps && Chained(a, tools, requests)
    ensures out == EndOf(stop, w.fate, turn, LastFailed(steps))
    ensures out.end == "ok" <==> w.fate == Alive && stop.LastWord? && !LastFailed(steps)
    ensures out.end == "ok" ==> IsFinal(turn) && out == Outcome("ok", "", turn.value.text)
    ensures out.end == "ok" ==>
              exists answer :: Delivers(w.replies(record.steps), answer) && LastWordSaid(a.openAi, answer, out.text)
    ensures EndIsSaid(a, w, record, stop, if turn.Some? then turn.value.text else "")
    ensures w.fate == Alive && stop.TooLong? ==> out == Outcome("limit", "tokens_out", "")
    ensures !Answerable(a, tools) && requests != [] ==> |requests| == 1 && stop == NoTurn(REJECTED)
  {
    hide Proper, Extends, EndOf, Walked, EndsWith, BreaksAt, Collected, Delivers, LastWordSaid, CutOffSaid, ToolsAsked;
    record, tools, requests, steps, turn, stop := Record(0, 0, []), [], [], [], None, NotConnected;
    if w.connects {
      var listed := ListTools(w);
      if listed.Err? {
        stop := NotListed(listed.error);
        ListingSober(w, listed.error);
      } else {
        tools := listed.value;
        record, requests, steps, turn, stop := Steps(a, w, tools);
        WalkedPast(a, w, tools, steps, record, requests, turn, stop);
      }
    }
    OnlyTheLastWordIsOk(stop, w.fate, turn, LastFailed(steps));
    EndsByName(stop, w.fate, turn, LastFailed(steps));
    TraceIsSaid(a, w, tools, steps, record, requests, turn, stop);
    out := EndOf(stop, w.fate, turn, LastFailed(steps));
  }

  lemma ListingSober(w: World, halt: Halt)
    requires exists n: nat :: BreaksAt(w, n, halt)
    ensures halt.end != "ok"
  {
  }

  lemma WalkedPast(
      a: Arguments, w: World, tools: seq<Tool>, steps: seq<Step>, record: Record, requests: seq<Wire>, turn: Option<Turn>,
      stop: Stop)
    requires Walked(a, w, tools, steps, record, requests, turn, stop)
    ensures !stop.NotConnected? && !stop.NotListed? && |requests| == record.steps
  {
  }
}
