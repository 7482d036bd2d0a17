/** The OpenAI event stream: the printer (internal/ir/denormalize_oai.go) and the reader
    (internal/adapter/apikey/openai.go). Framing follows section 9.2 of the WHATWG HTML Standard. */
module SseStream {
  import opened Wrappers
  import opened Bytes
  import opened Json
  import opened IR
  import opened Seqs

  const EVENT_START := "start"
  const EVENT_DELTA := "delta"
  const EVENT_BLOCK_DELTA := "content_block_delta"
  const EVENT_STOP := "stop"
  const EVENT_ERROR := "error"
  const EVENT_USAGE := "usage"

  const STOP_END_TURN := "end_turn"
  const STOP_MAX_TOKENS := "max_tokens"
  const STOP_SEQUENCE := "stop_sequence"
  const STOP_TOOL_USE := "tool_use"
  const STOP_ERROR := "error"

  const PARTIAL := "__partial"

  datatype Event = Event(typ: string, index: int, delta: Option<Block>, stopReason: string, error: Json)

  /** An event together with the Unix second at which it is printed. */
  datatype Timed = Timed(event: Event, created: int)

  function StartEvent(): Event {
    Event(EVENT_START, 0, None, "", Null)
  }

  function StopEvent(reason: string): Event {
    Event(EVENT_STOP, 0, None, reason, Null)
  }

  function TextEvent(text: string): Event {
    Event(EVENT_BLOCK_DELTA, 0, Some(TextBlock(text, map[])), "", Null)
  }

  function FragmentEvent(index: int, id: string, name: string, partial: string): Event {
    var use := ToolUse(id, name, map[PARTIAL := Str(partial)]);
    Event(EVENT_BLOCK_DELTA, index, Some(ToolUseBlock(use, map[])), "", Null)
  }

  // ---------- The printer ----------

  function FinishReason(stopReason: string): string {
    if stopReason == STOP_MAX_TOKENS then "length"
    else if stopReason == STOP_TOOL_USE then "tool_calls"
    else if stopReason == STOP_SEQUENCE then "stop"
    else if stopReason == STOP_ERROR then "error"
    else "stop"
  }

  predicate IsDelta(e: Event) {
    e.typ == EVENT_DELTA || e.typ == EVENT_BLOCK_DELTA
  }

  function Lookup(m: Fields, key: string): Json {
    if key in m then m[key] else Null
  }

  function FunctionFields(use: ToolUse): Fields {
    map["name" := Str(use.name), "arguments" := Lookup(use.arguments, PARTIAL)]
  }

  function ToolCallFields(index: int, use: ToolUse): Fields {
    map["id" := Str(use.id), "index" := Num(index as real), "type" := Str("function"),
        "function" := Obj(FunctionFields(use))]
  }

  function DeltaFields(e: Event): Fields {
    if e.typ == EVENT_START then map["role" := Str("assistant")]
    else if !IsDelta(e) || e.delta.None? then map[]
    else
      var d := e.delta.value;
      if d.typ == CONTENT_TEXT then map["content" := Str(d.text)]
      else if d.typ == CONTENT_TOOL_USE && d.toolUse.Some? then
        map["role" := Str("assistant"),
            "tool_calls" := Arr([Obj(ToolCallFields(e.index, d.toolUse.value))])]
      else map[]
  }

  function ChoiceFields(e: Event): Fields {
    map["index" := Num(e.index as real), "delta" := Obj(DeltaFields(e))]
    + if e.typ == EVENT_STOP then map["finish_reason" := Str(FinishReason(e.stopReason))] else map[]
  }

  function Chunk(t: Timed, responseID: string, model: string): Json {
    Obj(map[
      "id" := Str(responseID), "object" := Str("chat.completion.chunk"),
      "created" := Num(t.created as real), "model" := Str(model),
      "choices" := Arr([Obj(ChoiceFields(t.event))])]
      + if t.event.typ == EVENT_ERROR then map["error" := t.event.error] else map[])
  }

  // "data:", "data: " and "[DONE]"
  const DATA: seq<byte> := [100, 97, 116, 97, 58]
  const DATA_SPACE: seq<byte> := [100, 97, 116, 97, 58, 32]
  const DONE: seq<byte> := [91, 68, 79, 78, 69, 93]
  const OPEN_BRACE: byte := 123
  const CLOSE_BRACE: byte := 125

  function Frame(text: seq<byte>): seq<byte> {
    DATA_SPACE + text + [LF, LF]
  }

  function PrintFrom(events: seq<Timed>, responseID: string, model: string, marshal: Json -> seq<byte>): seq<byte> {
    if events == [] then Frame(DONE)
    else Frame(marshal(Chunk(events[0], responseID, model))) + PrintFrom(events[1..], responseID, model, marshal)
  }

  method BuildDelta(e: Event) returns (delta: Fields)
    ensures delta == DeltaFields(e)
  {
    delta := map[];
    if e.typ == EVENT_START {
      delta := map["role" := Str("assistant")];
    } else if IsDelta(e) && e.delta.Some? {
      var block := e.delta.value;
      if block.typ == CONTENT_TEXT {
        delta := map["content" := Str(block.text)];
      } else if block.typ == CONTENT_TOOL_USE && block.toolUse.Some? {
        var use := block.toolUse.value;
        var call := map["id" := Str(use.id), "index" := Num(e.index as real), "type" := Str("function")];
        var function_ := map["name" := Str(use.name), "arguments" := Lookup(use.arguments, PARTIAL)];
        call := call["function" := Obj(function_)];
        assert call == ToolCallFields(e.index, use);
        delta := map["role" := Str("assistant"), "tool_calls" := Arr([Obj(call)])];
      }
    }
  }

  method BuildChunk(t: Timed, responseID: string, model: string) returns (chunk: Json)
    ensures chunk == Chunk(t, responseID, model)
  {
    var choice := map["index" := Num(t.event.index as real)];
    var delta := BuildDelta(t.event);
    var payload := map[
      "id" := Str(responseID), "object" := Str("chat.completion.chunk"),
      "created" := Num(t.created as real), "model" := Str(model)];
    choice := choice["delta" := Obj(delta)];
    if t.event.typ == EVENT_STOP {
      choice := choice["finish_reason" := Str(FinishReason(t.event.stopReason))];
    }
    if t.event.typ == EVENT_ERROR {
      payload := payload["error" := t.event.error];
    }
    assert choice == ChoiceFields(t.event);
    payload := payload["choices" := Arr([Obj(choice)])];
    return Obj(payload);
  }

  method EventsToStream(events: seq<Timed>, responseID: string, model: string, marshal: Json -> seq<byte>)
    returns (buf: seq<byte>)
    ensures buf == PrintFrom(events, responseID, model, marshal)
  {
    buf := [];
    for i := 0 to |events|
      invariant PrintFrom(events, responseID, model, marshal)
        == buf + PrintFrom(events[i..], responseID, model, marshal)
    {
      var payload := BuildChunk(events[i], responseID, model);
      var frame, rest := Frame(marshal(payload)), PrintFrom(events[i + 1..], responseID, model, marshal);
      assert events[i..][1..] == events[i + 1..];
      assert buf + (frame + rest) == (buf + frame) + rest;
      buf := buf + frame;
    }
    buf := buf + Frame(DONE);
  }

  // ---------- The reader: one chunk ----------

  datatype ToolCall = ToolCall(id: string, index: int, name: string, arguments: string)

  datatype Choice = Choice(content: string, toolCalls: seq<ToolCall>, finishReason: string)

  /** A string member of a Go struct: absent and null leave it empty, any other type is an error. */
  function StringMember(m: Fields, key: string): Option<string> {
    match Lookup(m, key)
    case Null => Some("")
    case Str(s) => Some(s)
    case _ => None
  }

  function IntMember(m: Fields, key: string): Option<int> {
    match Lookup(m, key)
    case Null => Some(0)
    case Num(n) => if n.Floor as real == n then Some(n.Floor) else None
    case _ => None
  }

  function StructMember(m: Fields, key: string): Option<Fields> {
    AsStruct(Lookup(m, key))
  }

  function AsStruct(j: Json): Option<Fields> {
    match j
    case Null => Some(map[])
    case Obj(o) => Some(o)
    case _ => None
  }

  function ListMember(m: Fields, key: string): Option<seq<Json>> {
    match Lookup(m, key)
    case Null => Some([])
    case Arr(a) => Some(a)
    case _ => None
  }

  function DecodeToolCall(j: Json): Option<ToolCall> {
    var m := AsStruct(j);
    if m.None? then None
    else
      var id, index, fn := StringMember(m.value, "id"), IntMember(m.value, "index"), StructMember(m.value, "function");
      if id.None? || index.None? || fn.None? then None
      else
        var name, arguments := StringMember(fn.value, "name"), StringMember(fn.value, "arguments");
        if name.None? || arguments.None? then None
        else Some(ToolCall(id.value, index.value, name.value, arguments.value))
  }

  function DecodeToolCalls(a: seq<Json>): Option<seq<ToolCall>> {
    if a == [] then Some([])
    else
      var first, rest := DecodeToolCall(a[0]), DecodeToolCalls(a[1..]);
      if first.None? || rest.None? then None else Some([first.value] + rest.value)
  }

  function DecodeChoice(j: Json): Option<Choice> {
    var m := AsStruct(j);
    if m.None? then None
    else
      var delta, finish := StructMember(m.value, "delta"), StringMember(m.value, "finish_reason");
      if delta.None? || finish.None? then None
      else
        var content, role := StringMember(delta.value, "content"), StringMember(delta.value, "role");
        var calls := ListMember(delta.value, "tool_calls");
        if content.None? || role.None? || calls.None? then None
        else
          var toolCalls := DecodeToolCalls(calls.value);
          if toolCalls.None? then None else Some(Choice(content.value, toolCalls.value, finish.value))
  }

  function DecodeChoices(a: seq<Json>): Option<seq<Choice>> {
    if a == [] then Some([])
    else
      var first, rest := DecodeChoice(a[0]), DecodeChoices(a[1..]);
      if first.None? || rest.None? then None else Some([first.value] + rest.value)
  }

  /** The first choice of a chunk; a type error anywhere in the chunk loses all of it. */
  function DecodeChunk(j: Json): Option<Choice> {
    var m := AsStruct(j);
    if m.None? then None
    else
      var list := ListMember(m.value, "choices");
      if list.None? then None
      else
        var choices := DecodeChoices(list.value);
        if choices.None? || choices.value == [] then None else Some(choices.value[0])
  }

  function StopFromFinish(reason: string): string {
    if reason == "length" then STOP_MAX_TOKENS
    else if reason == "tool_calls" then STOP_TOOL_USE
    else STOP_END_TURN
  }

  function FragmentOf(c: ToolCall): Event {
    FragmentEvent(c.index, c.id, c.name, c.arguments)
  }

  function Fragments(calls: seq<ToolCall>): seq<Event> {
    if calls == [] then [] else [FragmentOf(calls[0])] + Fragments(calls[1..])
  }

  function ChoiceEvents(c: Choice): seq<Event> {
    (if c.content != "" then [TextEvent(c.content)] else [])
    + Fragments(c.toolCalls)
    + (if c.finishReason != "" then [StopEvent(StopFromFinish(c.finishReason))] else [])
  }

  function ChunkEvents(j: Option<Json>): seq<Event> {
    if j.None? then []
    else
      var c := DecodeChunk(j.value);
      if c.None? then [] else ChoiceEvents(c.value)
  }

  // ---------- The reader: the stream ----------

  function ReadLines(body: seq<byte>, unmarshal: seq<byte> -> Option<Json>): seq<Event>
    decreases |body|
  {
    if body == [] then []
    else
      var n := LineLength(body);
      var line := TrimSpace(body[..n]);
      var rest := if n < |body| then body[n + 1..] else [];
      if !(DATA <= line) then ReadLines(rest, unmarshal)
      else
        var data := TrimSpace(line[|DATA|..]);
        if data == DONE then [StopEvent(STOP_END_TURN)]
        else ChunkEvents(unmarshal(data)) + ReadLines(rest, unmarshal)
  }

  function ReadStream(body: seq<byte>, unmarshal: seq<byte> -> Option<Json>): seq<Event> {
    [StartEvent()] + ReadLines(body, unmarshal)
  }

  method EmitFragments(calls: seq<ToolCall>, before: seq<Event>) returns (out: seq<Event>)
    ensures out == before + Fragments(calls)
  {
    out := before;
    for i := 0 to |calls|
      invariant out + Fragments(calls[i..]) == before + Fragments(calls)
    {
      assert calls[i..][1..] == calls[i + 1..];
      assert out + ([FragmentOf(calls[i])] + Fragments(calls[i + 1..]))
          == (out + [FragmentOf(calls[i])]) + Fragments(calls[i + 1..]);
      out := out + [FragmentOf(calls[i])];
    }
    assert calls[|calls|..] == [];
  }

  method EmitChunk(json: Option<Json>, before: seq<Event>) returns (out: seq<Event>)
    ensures out == before + ChunkEvents(json)
  {
    out := before;
    if json.Some? {
      var decoded := DecodeChunk(json.value);
      if decoded.Some? {
        out := EmitChoice(decoded.value, out);
      }
    }
  }

  method EmitChoice(c: Choice, before: seq<Event>) returns (out: seq<Event>)
    ensures out == before + ChoiceEvents(c)
  {
    out := before;
    if c.content != "" {
      out := out + [TextEvent(c.content)];
    }
    out := EmitFragments(c.toolCalls, out);
    if c.finishReason != "" {
      out := out + [StopEvent(StopFromFinish(c.finishReason))];
    }
    assert out == before + ChoiceEvents(c);
  }

  method ParseStream(body: seq<byte>, unmarshal: seq<byte> -> Option<Json>) returns (out: seq<Event>)
    ensures out == ReadStream(body, unmarshal)
  {
    out := [StartEvent()];
    var rest := body;
    while rest != []
      invariant out + ReadLines(rest, unmarshal) == ReadStream(body, unmarshal)
      decreases |rest|
    {
      var n := LineLength(rest);
      var line := TrimSpace(rest[..n]);
      rest := if n < |rest| then rest[n + 1..] else [];
      if DATA <= line {
        var data := TrimSpace(line[|DATA|..]);
        if data == DONE {
          out := out + [StopEvent(STOP_END_TURN)];
          return;
        }
        Assoc(out, ChunkEvents(unmarshal(data)), ReadLines(rest, unmarshal));
        out := EmitChunk(unmarshal(data), out);
      }
    }
  }

  // ---------- What survives ----------

  /** The argument text a fragment carries, unless it is neither a string nor missing. */
  function PartialOf(use: ToolUse): Option<string> {
    StringMember(use.arguments, PARTIAL)
  }

  predicate IsFragment(e: Event) {
    IsDelta(e) && e.delta.Some? && e.delta.value.typ == CONTENT_TOOL_USE && e.delta.value.toolUse.Some?
  }

  /** What a reader makes of one printed event. */
  function Expected(e: Event): seq<Event> {
    if e.typ == EVENT_STOP then
      [StopEvent(if e.stopReason in {STOP_MAX_TOKENS, STOP_TOOL_USE} then e.stopReason else STOP_END_TURN)]
    else if !IsDelta(e) || e.delta.None? then []
    else if e.delta.value.typ == CONTENT_TEXT then
      if e.delta.value.text == "" then [] else [TextEvent(e.delta.value.text)]
    else if !IsFragment(e) then []
    else
      var use := e.delta.value.toolUse.value;
      match PartialOf(use)
      case Some(partial) => [FragmentEvent(e.index, use.id, use.name, partial)]
      case None => []
  }

  function EventOf(): Timed -> seq<Event> {
    (t: Timed) => Expected(t.event)
  }

  lemma ChunkChoices(t: Timed, responseID: string, model: string)
    ensures ListMember(Chunk(t, responseID, model).o, "choices") == Some([Obj(ChoiceFields(t.event))])
  {
  }

  lemma OneChoice(choice: Json)
    ensures DecodeChoices([choice]) == if DecodeChoice(choice).None? then None else Some([DecodeChoice(choice).value])
  {
    assert [choice][1..] == [];
    assert DecodeChoices([]) == Some([]);
    if DecodeChoice(choice).Some? {
      assert [DecodeChoice(choice).value] + [] == [DecodeChoice(choice).value];
    }
  }

  lemma ChoiceMembers(e: Event)
    ensures var m := ChoiceFields(e);
      StructMember(m, "delta") == Some(DeltaFields(e)) &&
      StringMember(m, "finish_reason") == Some(if e.typ == EVENT_STOP then FinishReason(e.stopReason) else "")
  {
  }

  lemma ToolCallDecodes(index: int, use: ToolUse)
    ensures DecodeToolCall(Obj(ToolCallFields(index, use))) ==
      match PartialOf(use) { case None => None case Some(p) => Some(ToolCall(use.id, index, use.name, p)) }
  {
    var m, f := ToolCallFields(index, use), FunctionFields(use);
    assert (index as real).Floor == index;
    assert StringMember(m, "id") == Some(use.id) && IntMember(m, "index") == Some(index);
    assert StructMember(m, "function") == Some(f);
    assert StringMember(f, "name") == Some(use.name) && StringMember(f, "arguments") == PartialOf(use);
  }

  lemma OneToolCall(call: Json)
    ensures DecodeToolCalls([call]) == if DecodeToolCall(call).None? then None else Some([DecodeToolCall(call).value])
  {
    assert [call][1..] == [];
    assert DecodeToolCalls([]) == Some([]);
    if DecodeToolCall(call).Some? {
      assert [DecodeToolCall(call).value] + [] == [DecodeToolCall(call).value];
    }
  }

  /** The choice an event is printed as, decoded. */
  function ReadChoice(e: Event): Option<Choice> {
    if IsFragment(e) then
      var use := e.delta.value.toolUse.value;
      match PartialOf(use)
      case None => None
      case Some(p) => Some(Choice("", [ToolCall(use.id, e.index, use.name, p)], ""))
    else
      Some(Choice(
        if IsDelta(e) && e.delta.Some? && e.delta.value.typ == CONTENT_TEXT then e.delta.value.text else "",
        [],
        if e.typ == EVENT_STOP then FinishReason(e.stopReason) else ""))
  }

  lemma ChoiceDecodes(e: Event)
    ensures DecodeChoice(Obj(ChoiceFields(e))) == ReadChoice(e)
  {
    ChoiceMembers(e);
    var d := DeltaFields(e);
    if IsFragment(e) {
      var use := e.delta.value.toolUse.value;
      var call := Obj(ToolCallFields(e.index, use));
      assert ListMember(d, "tool_calls") == Some([call]);
      assert StringMember(d, "content") == Some("") && StringMember(d, "role") == Some("assistant");
      ToolCallDecodes(e.index, use);
      OneToolCall(call);
    } else {
      assert ListMember(d, "tool_calls") == Some([]) && StringMember(d, "role").Some?;
      assert StringMember(d, "content") == Some(ReadChoice(e).value.content);
    }
  }

  lemma ReadChoiceEvents(e: Event)
    ensures Expected(e) == if ReadChoice(e).None? then [] else ChoiceEvents(ReadChoice(e).value)
  {
    if IsFragment(e) && ReadChoice(e).Some? {
      var calls := ReadChoice(e).value.toolCalls;
      assert calls[1..] == [] && Fragments(calls) == [FragmentOf(calls[0])];
    }
  }

  /** One printed chunk reads back as its event should. */
  lemma ChunkReads(t: Timed, responseID: string, model: string)
    ensures ChunkEvents(Some(Chunk(t, responseID, model))) == Expected(t.event)
  {
    ChunkChoices(t, responseID, model);
    OneChoice(Obj(ChoiceFields(t.event)));
    ChoiceDecodes(t.event);
    ReadChoiceEvents(t.event);
  }

  /** The JSON text of an object: one line between braces, which parses back. */
  predicate TextOk(marshal: Json -> seq<byte>, unmarshal: seq<byte> -> Option<Json>, j: Json) {
    var text := marshal(j);
    && |text| >= 2 && text[0] == OPEN_BRACE && text[|text| - 1] == CLOSE_BRACE && LF !in text
    && unmarshal(text) == Some(j)
  }

  /** What is assumed of the encoder and the decoder: the texts of the chunks of these events parse back. */
  predicate Printable(events: seq<Timed>, responseID: string, model: string,
                      marshal: Json -> seq<byte>, unmarshal: seq<byte> -> Option<Json>) {
    forall t | t in events :: TextOk(marshal, unmarshal, Chunk(t, responseID, model))
  }

  lemma DataOf(text: seq<byte>)
    requires text != [] && Trimmed(text)
    ensures var line := DATA_SPACE + text;
      TrimSpace(line) == line && DATA <= line && TrimSpace(line[|DATA|..]) == text
  {
    var line := DATA_SPACE + text;
    assert [] + line + [] == line;
    TrimSpaceAround([], line, []);
    assert line[|DATA|..] == [SPACE] + text + [];
    TrimSpaceAround([SPACE], text, []);
  }

  lemma BlankLineSkipped(rest: seq<byte>, unmarshal: seq<byte> -> Option<Json>)
    ensures ReadLines([LF] + rest, unmarshal) == ReadLines(rest, unmarshal)
  {
    var body := [LF] + rest;
    assert LineLength(body) == 0 && body[..0] == [] && body[1..] == rest;
    assert TrimSpace([]) == [];
  }

  lemma FrameRead(text: seq<byte>, rest: seq<byte>, unmarshal: seq<byte> -> Option<Json>)
    requires text != [] && Trimmed(text) && LF !in text
    ensures ReadLines(Frame(text) + rest, unmarshal) ==
      if text == DONE then [StopEvent(STOP_END_TURN)] else ChunkEvents(unmarshal(text)) + ReadLines(rest, unmarshal)
  {
    var head, tail := DATA_SPACE + text, [LF] + rest;
    var body := Frame(text) + rest;
    assert body == head + [LF] + tail;
    LineLengthOf(head, tail);
    assert body[..|head|] == head && body[|head| + 1..] == tail;
    DataOf(text);
    BlankLineSkipped(rest, unmarshal);
  }

  /** Start, every event that survives, in order, and a closing Stop. */
  function Received(events: seq<Timed>): seq<Event> {
    [StartEvent()] + (FlatMap(events, EventOf()) + [StopEvent(STOP_END_TURN)])
  }

  /** Reading what was printed gives Start, every event that survives, in order, and a closing Stop. */
  lemma StreamReads(events: seq<Timed>, responseID: string, model: string,
                    marshal: Json -> seq<byte>, unmarshal: seq<byte> -> Option<Json>)
    requires Printable(events, responseID, model, marshal, unmarshal)
    ensures ReadStream(PrintFrom(events, responseID, model, marshal), unmarshal) == Received(events)
  {
    LinesRead(events, responseID, model, marshal, unmarshal);
  }

  lemma EventRead(t: Timed, rest: seq<byte>, responseID: string, model: string,
                  marshal: Json -> seq<byte>, unmarshal: seq<byte> -> Option<Json>)
    requires TextOk(marshal, unmarshal, Chunk(t, responseID, model))
    ensures ReadLines(Frame(marshal(Chunk(t, responseID, model))) + rest, unmarshal)
      == Expected(t.event) + ReadLines(rest, unmarshal)
  {
    FrameRead(marshal(Chunk(t, responseID, model)), rest, unmarshal);
    ChunkReads(t, responseID, model);
  }

  lemma {:induction false} LinesRead(events: seq<Timed>, responseID: string, model: string,
                    marshal: Json -> seq<byte>, unmarshal: seq<byte> -> Option<Json>)
    requires Printable(events, responseID, model, marshal, unmarshal)
    ensures ReadLines(PrintFrom(events, responseID, model, marshal), unmarshal)
      == FlatMap(events, EventOf()) + [StopEvent(STOP_END_TURN)]
  {
    if events == [] {
      assert Frame(DONE) == Frame(DONE) + [];
      FrameRead(DONE, [], unmarshal);
    } else {
      assert events[0] in events;
      EventRead(events[0], PrintFrom(events[1..], responseID, model, marshal), responseID, model, marshal, unmarshal);
      LinesRead(events[1..], responseID, model, marshal, unmarshal);
      var x, y, z := Expected(events[0].event), FlatMap(events[1..], EventOf()), [StopEvent(STOP_END_TURN)];
      assert x + (y + z) == (x + y) + z;
    }
  }

  // ---------- Every stream has such texts ----------

  function Position(list: seq<Json>, j: Json): (n: nat)
    ensures n <= |list| && (n < |list| ==> list[n] == j) && (j in list ==> n < |list|)
  {
    if list == [] || list[0] == j then 0 else 1 + Position(list[1..], j)
  }

  /** An encoder that writes the place of a value in a list, and the decoder that looks it up. */
  function Numbering(list: seq<Json>): Json -> seq<byte> {
    (j: Json) => [OPEN_BRACE] + Decimal(Position(list, j)) + [CLOSE_BRACE]
  }

  function Numbered(list: seq<Json>, text: seq<byte>): Option<Json> {
    if |text| < 2 || !AllDigits(text[1..|text| - 1]) then None
    else
      var n := DecimalValue(text[1..|text| - 1]);
      if n < |list| then Some(list[n]) else None
  }

  lemma NumberingIsOk(list: seq<Json>, j: Json)
    requires j in list
    ensures TextOk(Numbering(list), text => Numbered(list, text), j)
  {
    var n := Position(list, j);
    DecimalRoundTrip(n);
    var text := Numbering(list)(j);
    assert text[1..|text| - 1] == Decimal(n);
  }

  /** Whatever the events, some encoder and decoder meet the assumption. */
  lemma SomeTextServes(events: seq<Timed>, responseID: string, model: string)
    returns (marshal: Json -> seq<byte>, unmarshal: seq<byte> -> Option<Json>)
    ensures Printable(events, responseID, model, marshal, unmarshal)
  {
    var list := seq(|events|, i requires 0 <= i < |events| => Chunk(events[i], responseID, model));
    marshal, unmarshal := Numbering(list), text => Numbered(list, text);
    forall t | t in events ensures TextOk(marshal, unmarshal, Chunk(t, responseID, model)) {
      var i :| 0 <= i < |events| && events[i] == t;
      assert list[i] in list;
      NumberingIsOk(list, list[i]);
    }
  }

  /** A tool-call fragment reaches the reader exactly when its partial arguments are a string or missing. */
  lemma FragmentSurvives(t: Timed, responseID: string, model: string)
    requires IsFragment(t.event)
    ensures var use := t.event.delta.value.toolUse.value;
      ChunkEvents(Some(Chunk(t, responseID, model))) ==
        match Lookup(use.arguments, PARTIAL) {
          case Str(s) => [FragmentEvent(t.event.index, use.id, use.name, s)]
          case Null => [FragmentEvent(t.event.index, use.id, use.name, "")]
          case _ => []
        }
  {
    ChunkReads(t, responseID, model);
  }

  /** A fragment whose partial arguments are a number is printed, and lost by the reader. */
  lemma NumberPartialIsLost(responseID: string, model: string)
    ensures var use := ToolUse("call_1", "f", map[PARTIAL := Num(1.0)]);
      var e := Event(EVENT_BLOCK_DELTA, 0, Some(ToolUseBlock(use, map[])), "", Null);
      DeltaFields(e) != map[] && ChunkEvents(Some(Chunk(Timed(e, 0), responseID, model))) == []
  {
    var use := ToolUse("call_1", "f", map[PARTIAL := Num(1.0)]);
    var e := Event(EVENT_BLOCK_DELTA, 0, Some(ToolUseBlock(use, map[])), "", Null);
    assert "tool_calls" in DeltaFields(e);
    FragmentSurvives(Timed(e, 0), responseID, model);
  }

  lemma ExpectedIsStable(e: Event)
    ensures forall x | x in Expected(e) :: Expected(x) == [x]
  {
    if IsFragment(e) && Expected(e) != [] {
      var x := Expected(e)[0];
      assert PartialOf(x.delta.value.toolUse.value).Some?;
    }
  }

  function At(created: int): Event -> seq<Timed> {
    (e: Event) => [Timed(e, created)]
  }

  lemma {:induction false} PrintedAgain(out: seq<Event>, created: int)
    requires forall x | x in out :: Expected(x) == [x]
    ensures FlatMap(FlatMap(out, At(created)), EventOf()) == out
  {
    forall x | x in out ensures FlatMap(At(created)(x), EventOf()) == [x] {
      FlatMapOne(Timed(x, created), EventOf());
    }
    var same := (e: Event) => if e in out then [e] else [];
    FlatMapFuse(out, At(created), EventOf(), same);
    FlatMapAll(out, same);
  }

  lemma StartIsNotRelayed(out: seq<Event>, created: int)
    ensures FlatMap(FlatMap([StartEvent()] + out, At(created)), EventOf())
      == FlatMap(FlatMap(out, At(created)), EventOf())
  {
    var start := [Timed(StartEvent(), created)];
    FlatMapAppend([StartEvent()], out, At(created));
    FlatMapOne(StartEvent(), At(created));
    FlatMapAppend(start, FlatMap(out, At(created)), EventOf());
    FlatMapOne(start[0], EventOf());
  }

  lemma WhatWasReadIsStable(events: seq<Timed>, x: Event)
    requires x in FlatMap(events, EventOf()) + [StopEvent(STOP_END_TURN)]
    ensures Expected(x) == [x]
  {
    if x in FlatMap(events, EventOf()) {
      var t := FlatMapFrom(events, EventOf(), x);
      ExpectedIsStable(t.event);
    }
  }

  /** Relaying what was read, by printing and reading it once more, loses nothing: it only adds another
      closing Stop. */
  lemma RelayAddsOneStop(events: seq<Timed>, responseID: string, model: string, created: int,
                         marshal: Json -> seq<byte>, unmarshal: seq<byte> -> Option<Json>)
    requires Printable(events + FlatMap(Received(events), At(created)), responseID, model, marshal, unmarshal)
    ensures var once := ReadStream(PrintFrom(events, responseID, model, marshal), unmarshal);
      var again := FlatMap(once, At(created));
      ReadStream(PrintFrom(again, responseID, model, marshal), unmarshal) == once + [StopEvent(STOP_END_TURN)]
  {
    var again := FlatMap(Received(events), At(created));
    PrintableParts(events, again, responseID, model, marshal, unmarshal);
    StreamReads(events, responseID, model, marshal, unmarshal);
    StreamReads(again, responseID, model, marshal, unmarshal);
    ReceivedAgain(events, created);
  }

  lemma ReceivedAgain(events: seq<Timed>, created: int)
    ensures Received(FlatMap(Received(events), At(created))) == Received(events) + [StopEvent(STOP_END_TURN)]
  {
    var out := FlatMap(events, EventOf()) + [StopEvent(STOP_END_TURN)];
    StartIsNotRelayed(out, created);
    forall x | x in out ensures Expected(x) == [x] {
      WhatWasReadIsStable(events, x);
    }
    PrintedAgain(out, created);
    Assoc([StartEvent()], out, [StopEvent(STOP_END_TURN)]);
  }

  lemma PrintableParts(a: seq<Timed>, b: seq<Timed>, responseID: string, model: string,
                       marshal: Json -> seq<byte>, unmarshal: seq<byte> -> Option<Json>)
    requires Printable(a + b, responseID, model, marshal, unmarshal)
    ensures Printable(a, responseID, model, marshal, unmarshal) && Printable(b, responseID, model, marshal, unmarshal)
  {
    assert forall t | t in a :: t in a + b;
    assert forall t | t in b :: t in a + b;
  }

  // ---------- The stream that is served ----------

  function BlockEvent(index: int, b: Block): Event {
    Event(EVENT_BLOCK_DELTA, index, Some(b), "", Null)
  }

  function BlockEvents(content: seq<Block>, index: int): seq<Event>
    decreases |content|
  {
    if content == [] then [] else [BlockEvent(index, content[0])] + BlockEvents(content[1..], index + 1)
  }

  function UsageEvent(): Event {
    Event(EVENT_USAGE, 0, None, "", Null)
  }

  /** What the router streams of a response: its whole blocks, each as one delta. */
  function Streamed(content: seq<Block>, stopReason: string): seq<Event> {
    [StartEvent()] + (BlockEvents(content, 0) + [UsageEvent(), StopEvent(stopReason)])
  }

  method StreamResponse(content: seq<Block>, stopReason: string) returns (ch: seq<Event>)
    ensures ch == Streamed(content, stopReason)
  {
    ch := [StartEvent()];
    assert content[0..] == content;
    for i := 0 to |content|
      invariant ch + BlockEvents(content[i..], i) == [StartEvent()] + BlockEvents(content, 0)
    {
      assert content[i..][1..] == content[i + 1..];
      Assoc(ch, [BlockEvent(i, content[i])], BlockEvents(content[i + 1..], i + 1));
      ch := ch + [BlockEvent(i, content[i])];
    }
    assert ch + [] == ch;
    ch := ch + [UsageEvent()];
    ch := ch + [StopEvent(stopReason)];
  }

  /** A fragment comes back with the arguments it had exactly when they are one string under __partial. */
  lemma ArgumentsSurvive(t: Timed, responseID: string, model: string)
    requires IsFragment(t.event)
    ensures var use := t.event.delta.value.toolUse.value;
      var out := ChunkEvents(Some(Chunk(t, responseID, model)));
      (|out| == 1 && IsFragment(out[0]) && out[0].delta.value.toolUse.value.arguments == use.arguments)
      <==> use.arguments.Keys == {PARTIAL} && use.arguments[PARTIAL].Str?
  {
    FragmentSurvives(t, responseID, model);
  }

  /** The block without its arguments, unless they hold a partial text. */
  function Stripped(b: Block): Block {
    if b.toolUse.None? || PARTIAL in b.toolUse.value.arguments then b
    else b.(toolUse := Some(b.toolUse.value.(arguments := map[])))
  }

  function StrippedAll(content: seq<Block>): (r: seq<Block>)
    ensures |r| == |content|
  {
    if content == [] then [] else [Stripped(content[0])] + StrippedAll(content[1..])
  }

  lemma {:induction false} StrippedReadsSame(content: seq<Block>, index: int, created: int)
    ensures FlatMap(FlatMap(BlockEvents(StrippedAll(content), index), At(created)), EventOf())
      == FlatMap(FlatMap(BlockEvents(content, index), At(created)), EventOf())
    decreases |content|
  {
    if content != [] {
      StrippedReadsSame(content[1..], index + 1, created);
      FirstBlockOf(content[0], content[1..], index, created);
      FirstBlockOf(Stripped(content[0]), StrippedAll(content[1..]), index, created);
      StrippedExpected(content[0], index);
    }
  }

  lemma StrippedExpected(b: Block, index: int)
    ensures Expected(BlockEvent(index, b)) == Expected(BlockEvent(index, Stripped(b)))
  {
  }

  lemma FirstBlockOf(b: Block, later: seq<Block>, index: int, created: int)
    ensures FlatMap(FlatMap(BlockEvents([b] + later, index), At(created)), EventOf())
      == Expected(BlockEvent(index, b)) + FlatMap(FlatMap(BlockEvents(later, index + 1), At(created)), EventOf())
  {
    assert ([b] + later)[1..] == later;
    FirstEventOf(BlockEvent(index, b), BlockEvents(later, index + 1), created);
  }

  lemma FirstEventOf(e: Event, later: seq<Event>, created: int)
    ensures FlatMap(FlatMap([e] + later, At(created)), EventOf())
      == Expected(e) + FlatMap(FlatMap(later, At(created)), EventOf())
  {
    FlatMapAppend([e], later, At(created));
    FlatMapOne(e, At(created));
    FlatMapAppend([Timed(e, created)], FlatMap(later, At(created)), EventOf());
    FlatMapOne(Timed(e, created), EventOf());
  }

  /** What a client receives of a served response does not depend on the arguments of its tool calls. */
  lemma ServedArgumentsAreLost(content: seq<Block>, stopReason: string, created: int)
    ensures Received(FlatMap(Streamed(content, stopReason), At(created)))
      == Received(FlatMap(Streamed(StrippedAll(content), stopReason), At(created)))
  {
    StrippedReadsSame(content, 0, created);
    ServedParts(content, stopReason, created);
    ServedParts(StrippedAll(content), stopReason, created);
  }

  lemma ServedParts(content: seq<Block>, stopReason: string, created: int)
    ensures var tail := [UsageEvent(), StopEvent(stopReason)];
      FlatMap(FlatMap(Streamed(content, stopReason), At(created)), EventOf())
      == FlatMap(FlatMap(BlockEvents(content, 0), At(created)), EventOf())
         + FlatMap(FlatMap(tail, At(created)), EventOf())
  {
    var blocks, tail := BlockEvents(content, 0), [UsageEvent(), StopEvent(stopReason)];
    StartIsNotRelayed(blocks + tail, created);
    FlatMapAppend(blocks, tail, At(created));
    FlatMapAppend(FlatMap(blocks, At(created)), FlatMap(tail, At(created)), EventOf());
  }

  // ---------- What one chunk says ----------

  /** Every chunk carries the response's id, model and time and one choice; an error event carries its error, and a
      stop event, and no other, a finish reason: length, tool_calls and error for those stops, stop for every other. */
  lemma ChunkSays(t: Timed, responseID: string, model: string)
    ensures var chunk := Chunk(t, responseID, model);
      && chunk.Obj?
      && var o := chunk.o;
         && o.Keys == {"id", "object", "created", "model", "choices"}
                      + (if t.event.typ == EVENT_ERROR then {"error"} else {})
         && o["id"] == Str(responseID) && o["model"] == Str(model) && o["created"] == Num(t.created as real)
         && o["object"] == Str("chat.completion.chunk")
         && (t.event.typ == EVENT_ERROR ==> o["error"] == t.event.error)
         && o["choices"].Arr? && |o["choices"].a| == 1 && o["choices"].a[0].Obj?
         && var choice := o["choices"].a[0].o;
            && "index" in choice && choice["index"] == Num(t.event.index as real)
            && "delta" in choice && choice["delta"] == Obj(DeltaFields(t.event))
            && ("finish_reason" in choice <==> t.event.typ == EVENT_STOP)
            && (t.event.typ == EVENT_STOP ==>
                  choice["finish_reason"] == Str(
                    if t.event.stopReason == STOP_MAX_TOKENS then "length"
                    else if t.event.stopReason == STOP_TOOL_USE then "tool_calls"
                    else if t.event.stopReason == STOP_ERROR then "error"
                    else "stop"))
  {
  }

  /** The start says the assistant's role, a text delta its text, a tool call one call of type function with its id,
      index, name and partial arguments; nothing else is said. */
  lemma DeltaSays(e: Event)
    ensures var delta := DeltaFields(e);
      && (e.typ == EVENT_START ==> delta == map["role" := Str("assistant")])
      && (IsDelta(e) && e.delta.Some? && e.delta.value.typ == CONTENT_TEXT ==>
            delta == map["content" := Str(e.delta.value.text)])
      && (IsFragment(e) ==>
            var use := e.delta.value.toolUse.value;
            && delta.Keys == {"role", "tool_calls"} && delta["role"] == Str("assistant")
            && delta["tool_calls"] == Arr([Obj(map[
                 "id" := Str(use.id), "index" := Num(e.index as real), "type" := Str("function"),
                 "function" := Obj(map[
                   "name" := Str(use.name),
                   "arguments" := if "__partial" in use.arguments then use.arguments["__partial"] else Null])])]))
      && (delta != map[] ==>
            e.typ == EVENT_START || IsFragment(e)
            || (IsDelta(e) && e.delta.Some? && e.delta.value.typ == CONTENT_TEXT))
  {
  }

  /** A served response is its start, each block whole under its own index, the usage, and the stop with its reason. */
  lemma {:induction false} StreamedExactly(content: seq<Block>, stopReason: string)
    ensures var ch, n := Streamed(content, stopReason), |content|;
      && |ch| == n + 3 && ch[0].typ == EVENT_START && ch[n + 1].typ == EVENT_USAGE
      && ch[n + 2].typ == EVENT_STOP && ch[n + 2].stopReason == stopReason
      && forall i | 0 <= i < n :: ch[i + 1] == Event(EVENT_BLOCK_DELTA, i, Some(content[i]), "", Null)
  {
    BlocksExactly(content, 0);
  }

  lemma {:induction false} BlocksExactly(content: seq<Block>, index: int)
    ensures |BlockEvents(content, index)| == |content|
    ensures forall i | 0 <= i < |content| ::
      BlockEvents(content, index)[i] == Event(EVENT_BLOCK_DELTA, index + i, Some(content[i]), "", Null)
    decreases |content|
  {
    if content != [] {
      BlocksExactly(content[1..], index + 1);
    }
  }
}
