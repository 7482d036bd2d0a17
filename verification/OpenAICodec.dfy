/** The OpenAI Chat Completions codec (internal/ir/normalize_oai.go, denormalize_oai.go). */
module OpenAICodec {
  import opened Wrappers
  import opened Json
  import opened IR
  import opened Seqs

  /** A tool call's arguments string: empty, the text of a JSON value, or text that is not JSON. */
  datatype ArgumentText = NoText | JsonText(v: Json) | NotJson

  datatype WireToolCall = WireToolCall(id: string, typ: string, name: string, arguments: ArgumentText)

  datatype WireMessage = WireMessage(
    role: string,
    content: Option<Json>,
    name: string,
    toolCallID: string,
    toolCalls: seq<WireToolCall>)

  datatype WireTool = WireTool(typ: string, function_: ToolDef)

  datatype WireRequest = WireRequest(
    model: string,
    messages: seq<WireMessage>,
    temperature: Option<real>,
    topP: Option<real>,
    maxTokens: int,
    stop: Option<Json>,
    stream: bool,
    tools: seq<WireTool>,
    toolChoice: Option<Json>,
    responseFormat: Option<Json>,
    user: string,
    metadata: map<string, string>)

  const TOOL_CHOICE := "tool_choice"
  const RESPONSE_FORMAT := "response_format"
  const ROLE_DEVELOPER := "developer"
  const USER := "user"

  // ---------- Reading ----------

  function NormalizeContent(raw: Option<Json>): Result<seq<Block>, CodecError> {
    if raw.None? || raw.value.Null? || raw.value == Str("") then Ok([])
    else if raw.value.Str? then Ok([TextBlock(raw.value.s, map[])])
    else if IsPartList(raw.value) then Ok(FlatMap(raw.value.a, NormalizePart))
    else Err(BadContent)
  }

  /** A text part, an image part in either spelling, or nothing. */
  function NormalizePart(p: Json): seq<Block> {
    var part := PartFields(p);
    var typ := StringField(part, "type");
    if typ == "text" || typ == "input_text" then [TextBlock(StringField(part, "text"), map[])]
    else if typ == "image_url" then [ImageBlock(StringField(ObjectField(part, "image_url"), "url"), [], "", map[])]
    else if typ == "input_image" then [ImageBlock(StringField(part, "image_url"), [], "", map[])]
    else []
  }

  function NormalizeCalls(calls: seq<WireToolCall>): Result<seq<Block>, CodecError> {
    if calls == [] then Ok([])
    else
      var arguments := ParseArguments(calls[0].arguments);
      if arguments.None? then Err(BadToolArguments)
      else
        var rest := NormalizeCalls(calls[1..]);
        if rest.Err? then rest
        else Ok([CallBlock(calls[0].id, calls[0].name, arguments.value)] + rest.value)
  }

  function CallBlock(id: string, name: string, arguments: Fields): Block {
    ToolUseBlock(ToolUse(id, name, arguments), map[])
  }

  function ParseArguments(text: ArgumentText): Option<Fields> {
    match text
    case NoText => Some(map[])
    case JsonText(v) => if v.Obj? then Some(v.o) else if v.Null? then Some(map[]) else None
    case NotJson => None
  }

  predicate IsSystem(role: string) {
    role == ROLE_SYSTEM || role == ROLE_DEVELOPER
  }

  function JoinSystem(system: string, text: string): string {
    if system == "" then text else if text != "" then system + "\n" + text else system
  }

  datatype Reading = Reading(system: string, messages: seq<Message>)

  /** One wire message: system text is gathered, a tool message becomes one tool result. */
  function NormalizeMessage(w: WireMessage, acc: Reading): Result<Reading, CodecError> {
    var content := NormalizeContent(w.content);
    if content.Err? then Err(content.error)
    else if IsSystem(w.role) then
      Ok(acc.(system := JoinSystem(acc.system, BlocksTextFrom(content.value, ""))))
    else
      var calls := NormalizeCalls(w.toolCalls);
      if calls.Err? then Err(calls.error)
      else
        var blocks := content.value + calls.value;
        var held :=
          if w.role == ROLE_TOOL then [ToolResultBlock(ToolResult(w.toolCallID, blocks, false), map[])] else blocks;
        Ok(acc.(messages := acc.messages + [Message(w.role, held)]))
  }

  function NormalizeMessages(wire: seq<WireMessage>, acc: Reading): Result<Reading, CodecError> {
    if wire == [] then Ok(acc)
    else
      var next := NormalizeMessage(wire[0], acc);
      if next.Err? then next else NormalizeMessages(wire[1..], next.value)
  }

  /** `stop` is a string or an array, of which only the strings count. */
  function ParseStop(stop: Option<Json>): seq<string> {
    if stop.None? then []
    else match stop.value
      case Str(s) => if s == "" then [] else [s]
      case Arr(a) => FlatMap(a, StringItem)
      case _ => []
  }

  function StringItem(item: Json): seq<string> {
    if item.Str? then [item.s] else []
  }

  function FunctionTool(tool: WireTool): seq<ToolDef> {
    if tool.typ == "" || tool.typ == "function" then [tool.function_] else []
  }

  function Extras(toolChoice: Option<Json>, responseFormat: Option<Json>): Fields {
    (if toolChoice.Some? then map[TOOL_CHOICE := toolChoice.value] else map[])
    + (if responseFormat.Some? then map[RESPONSE_FORMAT := responseFormat.value] else map[])
  }

  function NormalizeRequest(w: WireRequest, bridgeKeyID: string): Result<Request, CodecError> {
    var reading := NormalizeMessages(w.messages, Reading("", []));
    if reading.Err? then Err(reading.error)
    else Ok(Request(
      bridgeKeyID, w.model, reading.value.system, reading.value.messages, FlatMap(w.tools, FunctionTool), [],
      w.maxTokens, w.temperature, w.topP, ParseStop(w.stop), w.stream,
      if w.user != "" then w.metadata[USER := w.user] else w.metadata,
      Extras(w.toolChoice, w.responseFormat)))
  }

  // ---------- Writing ----------

  predicate TextOnly(blocks: seq<Block>) {
    forall b | b in blocks :: b.typ == CONTENT_TEXT
  }

  /** The texts of the text blocks, run together. */
  function TextOf(blocks: seq<Block>): string {
    FlatMap(blocks, TextPiece)
  }

  function TextPiece(b: Block): string {
    if b.typ == CONTENT_TEXT then b.text else ""
  }

  /** Text-only content is one string; anything else is a list of its text and image parts. */
  function EncodeContent(blocks: seq<Block>): Json {
    if TextOnly(blocks) then Str(TextOf(blocks)) else Arr(FlatMap(blocks, EncodePart))
  }

  function EncodePart(b: Block): seq<Json> {
    if b.typ == CONTENT_TEXT then [Obj(map["type" := Str("text"), "text" := Str(b.text)])]
    else if b.typ == CONTENT_IMAGE then
      [Obj(map["type" := Str("image_url"), "image_url" := Obj(map["url" := Str(b.imageURL)])])]
    else []
  }

  function EncodeCall(b: Block): seq<WireToolCall> {
    if b.toolUse.None? then []
    else [WireToolCall(b.toolUse.value.id, "function", b.toolUse.value.name, JsonText(Obj(b.toolUse.value.arguments)))]
  }

  /** The first tool result of the blocks, if any. */
  function FirstResult(blocks: seq<Block>): Option<ToolResult> {
    if blocks == [] then None
    else if blocks[0].toolResult.Some? then blocks[0].toolResult
    else FirstResult(blocks[1..])
  }

  function EncodeMessage(m: Message): WireMessage {
    var result := FirstResult(m.content);
    if m.role == ROLE_TOOL && result.Some? then
      WireMessage(m.role, Some(EncodeContent(result.value.content)), "", result.value.toolUseID, [])
    else WireMessage(m.role, Some(EncodeContent(m.content)), "", "", FlatMap(m.content, EncodeCall))
  }

  function EncodeStop(stops: seq<string>): Option<Json> {
    if |stops| == 0 then None
    else if |stops| == 1 then Some(Str(stops[0]))
    else Some(Arr(seq(|stops|, i requires 0 <= i < |stops| => Str(stops[i]))))
  }

  function DenormalizeRequest(req: Request): WireRequest {
    WireRequest(
      req.modelAlias,
      (if req.system != "" then [WireMessage(ROLE_SYSTEM, Some(Str(req.system)), "", "", [])] else [])
      + seq(|req.messages|, i requires 0 <= i < |req.messages| => EncodeMessage(req.messages[i])),
      req.temperature, req.topP, req.maxTokens, EncodeStop(req.stopSequences), req.stream,
      seq(|req.tools|, i requires 0 <= i < |req.tools| => WireTool("function", req.tools[i])),
      if TOOL_CHOICE in req.extras then Some(req.extras[TOOL_CHOICE]) else None,
      if RESPONSE_FORMAT in req.extras then Some(req.extras[RESPONSE_FORMAT]) else None,
      if USER in req.metadata then req.metadata[USER] else "",
      req.metadata)
  }

  // ---------- What the reader produces ----------

  ghost predicate Plain(b: Block) {
    b == TextBlock(b.text, map[]) || b == ImageBlock(b.imageURL, [], "", map[])
  }

  ghost predicate Call(b: Block) {
    b.toolUse.Some? && b == ToolUseBlock(b.toolUse.value, map[])
  }

  /** Plain blocks, then tool calls: the content of one wire message. */
  ghost predicate Held(blocks: seq<Block>) {
    && (forall i | 0 <= i < |blocks| :: Plain(blocks[i]) || Call(blocks[i]))
    && (forall i, j | 0 <= i < j < |blocks| :: Call(blocks[i]) ==> Call(blocks[j]))
  }

  ghost predicate HeldMessage(m: Message) {
    && !IsSystem(m.role)
    && if m.role == ROLE_TOOL then
         |m.content| == 1 && m.content[0].toolResult.Some?
         && var result := m.content[0].toolResult.value;
            m.content[0] == ToolResultBlock(ToolResult(result.toolUseID, result.content, false), map[])
              && Held(result.content)
       else Held(m.content)
  }

  /** The requests NormalizeRequest can produce. */
  ghost predicate HeldRequest(req: Request) {
    && (forall m | m in req.messages :: HeldMessage(m))
    && req.mcpServers == []
    && (forall k | k in req.extras :: k in {TOOL_CHOICE, RESPONSE_FORMAT})
  }

  lemma PartsArePlain(parts: seq<Json>)
    ensures forall b | b in FlatMap(parts, NormalizePart) :: Plain(b)
  {
    forall b | b in FlatMap(parts, NormalizePart) ensures Plain(b) {
      var p := FlatMapFrom(parts, NormalizePart, b);
    }
  }

  lemma {:induction false} CallsAreCalls(calls: seq<WireToolCall>)
    ensures NormalizeCalls(calls).Ok? ==> forall b | b in NormalizeCalls(calls).value :: Call(b)
  {
    if calls != [] {
      CallsAreCalls(calls[1..]);
    }
  }

  lemma MessageIsHeld(w: WireMessage, acc: Reading)
    requires NormalizeMessage(w, acc).Ok?
    requires forall m | m in acc.messages :: HeldMessage(m)
    ensures forall m | m in NormalizeMessage(w, acc).value.messages :: HeldMessage(m)
  {
    if !IsSystem(w.role) {
      if w.content.Some? && IsPartList(w.content.value) {
        PartsArePlain(w.content.value.a);
      }
      CallsAreCalls(w.toolCalls);
      var content, calls := NormalizeContent(w.content).value, NormalizeCalls(w.toolCalls).value;
      PlainThenCalls(content, calls);
    }
  }

  lemma {:induction false} MessagesAreHeld(wire: seq<WireMessage>, acc: Reading)
    requires NormalizeMessages(wire, acc).Ok?
    requires forall m | m in acc.messages :: HeldMessage(m)
    ensures forall m | m in NormalizeMessages(wire, acc).value.messages :: HeldMessage(m)
  {
    if wire != [] {
      MessageIsHeld(wire[0], acc);
      MessagesAreHeld(wire[1..], NormalizeMessage(wire[0], acc).value);
    }
  }

  lemma AcceptedIsHeld(w: WireRequest, bridgeKeyID: string)
    requires NormalizeRequest(w, bridgeKeyID).Ok?
    ensures HeldRequest(NormalizeRequest(w, bridgeKeyID).value)
  {
    MessagesAreHeld(w.messages, Reading("", []));
  }

  // ---------- Reading back what was written ----------

  function PlainOf(blocks: seq<Block>): seq<Block> {
    FlatMap(blocks, KeepPlain)
  }

  function KeepPlain(b: Block): seq<Block> {
    if b.typ in {CONTENT_TEXT, CONTENT_IMAGE} then [b] else []
  }

  function CallsOf(blocks: seq<Block>): seq<Block> {
    FlatMap(blocks, KeepCall)
  }

  function KeepCall(b: Block): seq<Block> {
    if b.toolUse.Some? then [b] else []
  }

  /** Content after one trip: text-only content becomes its whole text, or nothing; other content keeps
      its text and image blocks. */
  function Settled(blocks: seq<Block>): seq<Block> {
    if TextOnly(blocks) then
      (if TextOf(blocks) == "" then [] else [TextBlock(TextOf(blocks), map[])])
    else PlainOf(blocks)
  }

  function SettledMessage(m: Message): Message {
    var result := FirstResult(m.content);
    if m.role == ROLE_TOOL && result.Some? then
      var settled := ToolResult(result.value.toolUseID, Settled(result.value.content), false);
      Message(m.role, [ToolResultBlock(settled, map[])])
    else Message(m.role, Settled(m.content) + CallsOf(m.content))
  }

  function SettledRequest(req: Request): Request {
    req.(messages := seq(|req.messages|, i requires 0 <= i < |req.messages| => SettledMessage(req.messages[i])),
         stopSequences := if req.stopSequences == [""] then [] else req.stopSequences)
  }

  lemma PartReadsBack(b: Block)
    requires Plain(b) || Call(b)
    ensures forall p | p in EncodePart(b) :: p.Obj?
    ensures FlatMap(EncodePart(b), NormalizePart) == KeepPlain(b)
  {
    if EncodePart(b) != [] {
      FlatMapOne(EncodePart(b)[0], NormalizePart);
      assert StringField(EncodePart(b)[0].o, "type") == (if b.typ == CONTENT_TEXT then "text" else "image_url");
    }
  }

  lemma PartsReadBack(blocks: seq<Block>)
    requires forall b | b in blocks :: Plain(b) || Call(b)
    ensures IsPartList(Arr(FlatMap(blocks, EncodePart)))
    ensures FlatMap(FlatMap(blocks, EncodePart), NormalizePart) == PlainOf(blocks)
  {
    forall b | b in blocks ensures FlatMap(EncodePart(b), NormalizePart) == KeepPlain(b) {
      PartReadsBack(b);
    }
    FlatMapFuse(blocks, EncodePart, NormalizePart, KeepPlain);
    forall p | p in FlatMap(blocks, EncodePart) ensures p.Obj? {
      var b := FlatMapFrom(blocks, EncodePart, p);
    }
  }

  lemma ContentReadsBack(blocks: seq<Block>)
    requires forall b | b in blocks :: Plain(b) || Call(b)
    ensures NormalizeContent(Some(EncodeContent(blocks))) == Ok(Settled(blocks))
  {
    PartsReadBack(blocks);
  }

  lemma {:induction false} CallsReadBack(blocks: seq<Block>)
    requires forall b | b in blocks :: Plain(b) || Call(b)
    ensures NormalizeCalls(FlatMap(blocks, EncodeCall)) == Ok(CallsOf(blocks))
  {
    if blocks != [] {
      CallsReadBack(blocks[1..]);
      assert blocks[0] in blocks;
      if blocks[0].toolUse.Some? {
        var use := blocks[0].toolUse.value;
        var first := WireToolCall(use.id, "function", use.name, JsonText(Obj(use.arguments)));
        assert FlatMap(blocks, EncodeCall) == [first] + FlatMap(blocks[1..], EncodeCall);
        assert FlatMap(blocks, EncodeCall)[1..] == FlatMap(blocks[1..], EncodeCall);
        assert ParseArguments(first.arguments) == Some(use.arguments);
        assert CallBlock(use.id, use.name, use.arguments) == blocks[0];
      } else {
        assert FlatMap(blocks, EncodeCall) == FlatMap(blocks[1..], EncodeCall);
        assert CallsOf(blocks) == CallsOf(blocks[1..]);
      }
    }
  }

  lemma MessageReadsBack(m: Message, acc: Reading)
    requires HeldMessage(m)
    ensures NormalizeMessage(EncodeMessage(m), acc) == Ok(acc.(messages := acc.messages + [SettledMessage(m)]))
  {
    if m.role == ROLE_TOOL {
      var result := m.content[0].toolResult.value;
      assert FirstResult(m.content) == Some(result);
      ContentReadsBack(result.content);
      assert Settled(result.content) + [] == Settled(result.content);
    } else {
      NoResults(m.content);
      ContentReadsBack(m.content);
      CallsReadBack(m.content);
    }
  }

  lemma {:induction false} NoResults(blocks: seq<Block>)
    requires Held(blocks)
    ensures FirstResult(blocks) == None
  {
    if blocks != [] {
      NoResults(blocks[1..]);
    }
  }

  /** Whatever was read before it, the reader adds exactly m for w. */
  ghost predicate ReadsAs(w: WireMessage, m: Message) {
    forall acc: Reading :: NormalizeMessage(w, acc) == Ok(acc.(messages := acc.messages + [m]))
  }

  ghost predicate AllReadAs(wire: seq<WireMessage>, messages: seq<Message>)
    decreases |wire|
  {
    && |wire| == |messages|
    && (wire != [] ==> ReadsAs(wire[0], messages[0]) && AllReadAs(wire[1..], messages[1..]))
  }

  lemma {:induction false} MessagesRead(
    wire: seq<WireMessage>, messages: seq<Message>, acc: Reading, all: seq<Message>)
    requires AllReadAs(wire, messages) && all == acc.messages + messages
    ensures NormalizeMessages(wire, acc) == Ok(Reading(acc.system, all))
    decreases |wire|
  {
    if wire == [] {
      assert all == acc.messages;
    } else {
      var next := Reading(acc.system, acc.messages + [messages[0]]);
      FirstRead(wire, messages[0], acc);
      MovedOver(acc.messages, messages);
      MessagesRead(wire[1..], messages[1..], next, all);
    }
  }

  lemma EncodedReadsAs(m: Message)
    requires HeldMessage(m)
    ensures ReadsAs(EncodeMessage(m), SettledMessage(m))
  {
    forall acc: Reading {
      MessageReadsBack(m, acc);
    }
  }

  lemma {:induction false} EncodedReadAs(messages: seq<Message>, wire: seq<WireMessage>, settled: seq<Message>)
    requires |wire| == |messages| == |settled| && forall m | m in messages :: HeldMessage(m)
    requires forall i | 0 <= i < |messages| :: wire[i] == EncodeMessage(messages[i])
    requires forall i | 0 <= i < |messages| :: settled[i] == SettledMessage(messages[i])
    ensures AllReadAs(wire, settled)
    decreases |messages|
  {
    if messages != [] {
      EncodedReadsAs(messages[0]);
      EncodedReadAs(messages[1..], wire[1..], settled[1..]);
    }
  }

  lemma FirstRead(wire: seq<WireMessage>, m: Message, acc: Reading)
    requires wire != [] && ReadsAs(wire[0], m)
    ensures NormalizeMessages(wire, acc) == NormalizeMessages(wire[1..], acc.(messages := acc.messages + [m]))
  {
  }

  lemma MovedOver<T>(done: seq<T>, s: seq<T>)
    requires s != []
    ensures (done + [s[0]]) + s[1..] == done + s
  {
  }

  lemma {:induction false} ToolsReadBack(tools: seq<ToolDef>, wire: seq<WireTool>)
    requires |wire| == |tools| && forall i | 0 <= i < |wire| :: wire[i] == WireTool("function", tools[i])
    ensures FlatMap(wire, FunctionTool) == tools
  {
    if tools != [] {
      ToolsReadBack(tools[1..], wire[1..]);
    }
  }

  lemma {:induction false} StringsReadBack(stops: seq<string>, wire: seq<Json>)
    requires |wire| == |stops| && forall i | 0 <= i < |wire| :: wire[i] == Str(stops[i])
    ensures FlatMap(wire, StringItem) == stops
  {
    if stops != [] {
      StringsReadBack(stops[1..], wire[1..]);
    }
  }

  lemma SystemReadsBack(system: string)
    requires system != ""
    ensures NormalizeMessage(WireMessage(ROLE_SYSTEM, Some(Str(system)), "", "", []), Reading("", []))
      == Ok(Reading(system, []))
  {
    var blocks := [TextBlock(system, map[])];
    assert blocks[1..] == [];
    assert "" + "" + system == system;
    assert BlocksTextFrom(blocks, "") == system;
  }

  lemma StopReadsBack(stops: seq<string>)
    ensures ParseStop(EncodeStop(stops)) == if stops == [""] then [] else stops
  {
    if |stops| > 1 {
      StringsReadBack(stops, EncodeStop(stops).value.a);
    }
  }

  /** The wire messages without the system message in front. */
  function OwnMessages(req: Request): (own: seq<WireMessage>)
    ensures |own| == |req.messages| && forall i | 0 <= i < |own| :: own[i] == EncodeMessage(req.messages[i])
  {
    seq(|req.messages|, i requires 0 <= i < |req.messages| => EncodeMessage(req.messages[i]))
  }

  lemma OwnReadBack(req: Request)
    requires forall m | m in req.messages :: HeldMessage(m)
    ensures NormalizeMessages(OwnMessages(req), Reading(req.system, []))
      == Ok(Reading(req.system, SettledRequest(req).messages))
  {
    var settled := SettledRequest(req).messages;
    EncodedReadAs(req.messages, OwnMessages(req), settled);
    assert [] + settled == settled;
    MessagesRead(OwnMessages(req), settled, Reading(req.system, []), settled);
  }

  lemma ConversationReadsBack(req: Request)
    requires forall m | m in req.messages :: HeldMessage(m)
    ensures NormalizeMessages(DenormalizeRequest(req).messages, Reading("", [])) ==
            Ok(Reading(req.system, SettledRequest(req).messages))
  {
    var wire := DenormalizeRequest(req).messages;
    OwnReadBack(req);
    if req.system != "" {
      SystemReadsBack(req.system);
      assert wire[1..] == OwnMessages(req);
      assert wire[0] == WireMessage(ROLE_SYSTEM, Some(Str(req.system)), "", "", []);
    } else {
      assert wire == OwnMessages(req);
    }
  }

  lemma ExtrasReadBack(extras: Fields)
    requires forall k | k in extras :: k in {TOOL_CHOICE, RESPONSE_FORMAT}
    ensures Extras(if TOOL_CHOICE in extras then Some(extras[TOOL_CHOICE]) else None,
                   if RESPONSE_FORMAT in extras then Some(extras[RESPONSE_FORMAT]) else None) == extras
  {
  }

  /** Encoding a held request and reading it back settles it, and does nothing else. */
  lemma RequestReadsBack(req: Request)
    requires HeldRequest(req)
    ensures NormalizeRequest(DenormalizeRequest(req), req.bridgeKeyID) == Ok(SettledRequest(req))
  {
    ConversationReadsBack(req);
    ToolsReadBack(req.tools, DenormalizeRequest(req).tools);
    StopReadsBack(req.stopSequences);
    ExtrasReadBack(req.extras);
    var wire := DenormalizeRequest(req);
    assert (if wire.user != "" then wire.metadata[USER := wire.user] else wire.metadata) == req.metadata;
  }

  // ---------- What one trip keeps, and when a second one is the identity ----------

  function ImagesOf(blocks: seq<Block>): seq<string> {
    FlatMap(blocks, ImagePiece)
  }

  function ImagePiece(b: Block): seq<string> {
    if b.typ == CONTENT_IMAGE then [b.imageURL] else []
  }

  /** Taking the plain blocks keeps texts and images and drops the calls. */
  lemma PlainKeeps(blocks: seq<Block>)
    requires forall b | b in blocks :: Plain(b) || Call(b)
    ensures TextOf(PlainOf(blocks)) == TextOf(blocks) && ImagesOf(PlainOf(blocks)) == ImagesOf(blocks)
    ensures CallsOf(PlainOf(blocks)) == [] && PlainOf(PlainOf(blocks)) == PlainOf(blocks)
    ensures forall b | b in PlainOf(blocks) :: b in blocks && Plain(b)
  {
    PlainAreBlocks(blocks);
    FlatMapFuse(blocks, KeepPlain, TextPiece, TextPiece);
    FlatMapFuse(blocks, KeepPlain, ImagePiece, ImagePiece);
    FlatMapNone(PlainOf(blocks), KeepCall);
    FlatMapAll(PlainOf(blocks), KeepPlain);
  }

  lemma PlainAreBlocks(blocks: seq<Block>)
    requires forall b | b in blocks :: Plain(b) || Call(b)
    ensures forall b | b in PlainOf(blocks) :: b in blocks && Plain(b)
  {
    forall b | b in PlainOf(blocks) ensures b in blocks && Plain(b) {
      var x := FlatMapFrom(blocks, KeepPlain, b);
    }
  }

  /** Taking the calls does the reverse. */
  lemma CallsKeep(blocks: seq<Block>)
    requires forall b | b in blocks :: Plain(b) || Call(b)
    ensures TextOf(CallsOf(blocks)) == "" && ImagesOf(CallsOf(blocks)) == []
    ensures CallsOf(CallsOf(blocks)) == CallsOf(blocks) && PlainOf(CallsOf(blocks)) == []
    ensures forall b | b in CallsOf(blocks) :: b in blocks && Call(b)
  {
    forall b | b in CallsOf(blocks) ensures b in blocks && Call(b) {
      var x := FlatMapFrom(blocks, KeepCall, b);
    }
    FlatMapNone(CallsOf(blocks), TextPiece);
    FlatMapNone(CallsOf(blocks), ImagePiece);
    FlatMapNone(CallsOf(blocks), KeepPlain);
    FlatMapAll(CallsOf(blocks), KeepCall);
  }

  lemma {:induction false} HeldSplits(blocks: seq<Block>)
    requires Held(blocks)
    ensures PlainOf(blocks) + CallsOf(blocks) == blocks
  {
    if blocks != [] {
      if Call(blocks[0]) {
        FlatMapNone(blocks, KeepPlain);
        FlatMapAll(blocks, KeepCall);
      } else {
        HeldSplits(blocks[1..]);
      }
    }
  }

  /** No text at all, or one non-empty text: text content that merging leaves alone. */
  predicate Whole(blocks: seq<Block>) {
    |blocks| == 0 || (|blocks| == 1 && blocks[0].text != "")
  }

  lemma SettledKeeps(blocks: seq<Block>)
    requires forall b | b in blocks :: Plain(b) || Call(b)
    ensures TextOf(Settled(blocks)) == TextOf(blocks) && ImagesOf(Settled(blocks)) == ImagesOf(blocks)
    ensures CallsOf(Settled(blocks)) == [] && forall b | b in Settled(blocks) :: Plain(b)
  {
    PlainKeeps(blocks);
    if TextOnly(blocks) {
      FlatMapNone(blocks, ImagePiece);
      if TextOf(blocks) != "" {
        var whole := TextBlock(TextOf(blocks), map[]);
        FlatMapOne(whole, TextPiece);
        FlatMapOne(whole, ImagePiece);
        FlatMapOne(whole, KeepCall);
      }
    }
  }

  /** Plain content survives untouched exactly when it is whole or holds an image. */
  lemma SettledExactly(blocks: seq<Block>)
    requires forall b | b in blocks :: Plain(b)
    ensures Settled(blocks) == blocks <==> !TextOnly(blocks) || Whole(blocks)
  {
    if !TextOnly(blocks) {
      FlatMapAll(blocks, KeepPlain);
    } else if |blocks| == 1 {
      FlatMapOne(blocks[0], TextPiece);
      assert blocks == [blocks[0]] && blocks[0] in blocks;
    }
  }

  /** A message one trip leaves alone: whole text, and no calls under a tool result. */
  predicate IsSettled(m: Message) {
    var result := FirstResult(m.content);
    if m.role == ROLE_TOOL && result.Some? then
      CallsOf(result.value.content) == [] && (TextOnly(result.value.content) ==> Whole(result.value.content))
    else TextOnly(m.content) ==> Whole(m.content)
  }

  lemma MessageSettledExactly(m: Message)
    requires HeldMessage(m)
    ensures SettledMessage(m) == m <==> IsSettled(m)
  {
    if m.role == ROLE_TOOL {
      ToolMessageSettledExactly(m);
    } else {
      var blocks := m.content;
      NoResults(blocks);
      HeldSplits(blocks);
      PlainKeeps(blocks);
      if TextOnly(blocks) {
        FlatMapNone(blocks, KeepCall);
        assert Settled(blocks) + [] == Settled(blocks);
        SettledExactly(blocks);
      }
    }
  }

  lemma ToolMessageSettledExactly(m: Message)
    requires HeldMessage(m) && m.role == ROLE_TOOL
    ensures SettledMessage(m) == m <==> IsSettled(m)
  {
    var blocks := m.content[0].toolResult.value.content;
    assert FirstResult(m.content).value.content == blocks;
    HeldSplits(blocks);
    PlainKeeps(blocks);
    SettledKeeps(blocks);
    if CallsOf(blocks) == [] {
      SettledExactly(blocks);
    }
  }

  /** One trip keeps the role, the whole text, the images and, outside tool messages, the calls. */
  lemma MessageKeeps(m: Message)
    requires HeldMessage(m)
    ensures var n := SettledMessage(m);
            && HeldMessage(n) && n.role == m.role
            && (m.role != ROLE_TOOL ==>
                  TextOf(n.content) == TextOf(m.content) && ImagesOf(n.content) == ImagesOf(m.content)
                  && CallsOf(n.content) == CallsOf(m.content))
            && (m.role == ROLE_TOOL ==>
                  var before, after := m.content[0].toolResult.value, n.content[0].toolResult.value;
                  after.toolUseID == before.toolUseID && TextOf(after.content) == TextOf(before.content)
                  && ImagesOf(after.content) == ImagesOf(before.content) && CallsOf(after.content) == [])
  {
    if m.role == ROLE_TOOL {
      SettledKeeps(m.content[0].toolResult.value.content);
      var after := SettledMessage(m).content[0].toolResult.value.content;
      assert forall i | 0 <= i < |after| :: after[i] in after;
    } else {
      NoResults(m.content);
      SettledKeeps(m.content);
      CallsKeep(m.content);
      NonToolKeeps(m.content);
    }
  }

  lemma NonToolKeeps(blocks: seq<Block>)
    requires Held(blocks)
    ensures var after := Settled(blocks) + CallsOf(blocks);
            Held(after) && TextOf(after) == TextOf(blocks) && ImagesOf(after) == ImagesOf(blocks)
              && CallsOf(after) == CallsOf(blocks)
  {
    SettledKeeps(blocks);
    CallsKeep(blocks);
    var plain, calls := Settled(blocks), CallsOf(blocks);
    PlainThenCalls(plain, calls);
    FlatMapAppend(plain, calls, TextPiece);
    FlatMapAppend(plain, calls, ImagePiece);
    FlatMapAppend(plain, calls, KeepCall);
    assert TextOf(plain) + "" == TextOf(plain);
    assert ImagesOf(plain) + [] == ImagesOf(plain);
    assert [] + calls == calls;
  }

  lemma PlainThenCalls(plain: seq<Block>, calls: seq<Block>)
    requires forall b | b in plain :: Plain(b)
    requires forall b | b in calls :: Call(b)
    ensures Held(plain + calls)
  {
    assert forall i | 0 <= i < |plain| :: plain[i] in plain;
    assert forall i | 0 <= i < |calls| :: calls[i] in calls;
  }

  /** Any request at all survives one trip exactly when it is one the reader can produce, every message is settled,
      and the stop list is not one empty string. */
  lemma OneTripExactly(req: Request)
    ensures NormalizeRequest(DenormalizeRequest(req), req.bridgeKeyID) == Ok(req) <==>
            HeldRequest(req) && (forall m | m in req.messages :: IsSettled(m)) && req.stopSequences != [""]
  {
    var back := NormalizeRequest(DenormalizeRequest(req), req.bridgeKeyID);
    if back == Ok(req) {
      AcceptedIsHeld(DenormalizeRequest(req), req.bridgeKeyID);
    }
    if HeldRequest(req) {
      RequestReadsBack(req);
      SettledRequestExactly(req);
    }
  }

  lemma SettledRequestExactly(req: Request)
    requires HeldRequest(req)
    ensures SettledRequest(req) == req <==>
            (forall m | m in req.messages :: IsSettled(m)) && req.stopSequences != [""]
  {
    var settled := SettledRequest(req);
    forall i | 0 <= i < |req.messages|
      ensures settled.messages[i] == req.messages[i] <==> IsSettled(req.messages[i])
    {
      assert req.messages[i] in req.messages;
      MessageSettledExactly(req.messages[i]);
    }
    if forall m | m in req.messages :: IsSettled(m) {
      assert settled.messages == req.messages;
    } else {
      var m :| m in req.messages && !IsSettled(m);
      var i :| 0 <= i < |req.messages| && req.messages[i] == m;
      assert settled.messages[i] != req.messages[i];
    }
  }

  // ---------- Every request can be read back ----------

  lemma {:induction false} EncodedCallsRead(blocks: seq<Block>)
    ensures NormalizeCalls(FlatMap(blocks, EncodeCall)).Ok?
  {
    if blocks != [] {
      EncodedCallsRead(blocks[1..]);
      var rest := FlatMap(blocks[1..], EncodeCall);
      if blocks[0].toolUse.Some? {
        var call := EncodeCall(blocks[0])[0];
        assert ([call] + rest)[1..] == rest;
      } else {
        assert [] + rest == rest;
      }
    }
  }

  lemma EncodedContentReads(blocks: seq<Block>)
    ensures NormalizeContent(Some(EncodeContent(blocks))).Ok?
  {
    if !TextOnly(blocks) {
      forall p | p in FlatMap(blocks, EncodePart) ensures p.Obj? {
        var b := FlatMapFrom(blocks, EncodePart, p);
      }
    }
  }

  lemma EncodedMessageReads(m: Message, acc: Reading)
    ensures NormalizeMessage(EncodeMessage(m), acc).Ok?
  {
    var result := FirstResult(m.content);
    if m.role == ROLE_TOOL && result.Some? {
      EncodedContentReads(result.value.content);
    } else {
      EncodedContentReads(m.content);
      EncodedCallsRead(m.content);
    }
  }

  lemma {:induction false} EncodedMessagesRead(messages: seq<Message>, wire: seq<WireMessage>, acc: Reading)
    requires |wire| == |messages| && forall i | 0 <= i < |wire| :: wire[i] == EncodeMessage(messages[i])
    ensures NormalizeMessages(wire, acc).Ok?
    decreases |wire|
  {
    if wire != [] {
      EncodedMessageReads(messages[0], acc);
      EncodedMessagesRead(messages[1..], wire[1..], NormalizeMessage(wire[0], acc).value);
    }
  }

  /** Whatever the request, what is written of it is accepted. */
  lemma EncodedIsAccepted(req: Request)
    ensures NormalizeRequest(DenormalizeRequest(req), req.bridgeKeyID).Ok?
  {
    var wire := DenormalizeRequest(req).messages;
    var own := OwnMessages(req);
    if req.system != "" {
      SystemReadsBack(req.system);
      EncodedMessagesRead(req.messages, own, Reading(req.system, []));
      assert wire[1..] == own && wire[0] == WireMessage(ROLE_SYSTEM, Some(Str(req.system)), "", "", []);
    } else {
      EncodedMessagesRead(req.messages, own, Reading("", []));
      assert wire == own;
    }
  }

  /** A tool message whose calls were dropped may be left with several texts: only a second trip merges them. */
  predicate SettlesAtOnce(m: Message) {
    var result := FirstResult(m.content);
    m.role == ROLE_TOOL && result.Some? && CallsOf(result.value.content) != [] ==>
      (TextOnly(PlainOf(result.value.content)) ==> Whole(PlainOf(result.value.content)))
  }

  lemma SecondTripOfMessage(m: Message)
    requires HeldMessage(m)
    ensures SettledMessage(SettledMessage(m)) == SettledMessage(m) <==> SettlesAtOnce(m)
  {
    var n := SettledMessage(m);
    MessageKeeps(m);
    MessageSettledExactly(n);
    if m.role == ROLE_TOOL {
      SecondTripOfTools(m);
    } else {
      NoResults(n.content);
      HeldSplits(m.content);
      PlainKeeps(m.content);
      SecondTripOutsideTools(m.content);
    }
  }

  lemma SecondTripOfTools(m: Message)
    requires HeldMessage(m) && m.role == ROLE_TOOL
    ensures IsSettled(SettledMessage(m)) <==> SettlesAtOnce(m)
  {
    var blocks := m.content[0].toolResult.value.content;
    MessageKeeps(m);
    PlainKeeps(blocks);
    assert FirstResult(SettledMessage(m).content).value.content == Settled(blocks);
    if TextOnly(blocks) {
      FlatMapNone(blocks, KeepCall);
    } else if CallsOf(blocks) == [] {
      HeldSplits(blocks);
    }
  }

  lemma SecondTripOutsideTools(blocks: seq<Block>)
    requires Held(blocks)
    ensures var after := Settled(blocks) + CallsOf(blocks); TextOnly(after) ==> Whole(after)
  {
    CallsKeep(blocks);
    var calls := CallsOf(blocks);
    if TextOnly(blocks) {
      FlatMapNone(blocks, KeepCall);
    } else {
      HeldSplits(blocks);
      assert Settled(blocks) + calls == blocks;
    }
  }

  lemma RequestKeeps(req: Request)
    requires HeldRequest(req)
    ensures HeldRequest(SettledRequest(req))
  {
    forall m | m in SettledRequest(req).messages ensures HeldMessage(m) {
      var i :| 0 <= i < |req.messages| && m == SettledMessage(req.messages[i]);
      assert req.messages[i] in req.messages;
      MessageKeeps(req.messages[i]);
    }
  }

  /** The trip is idempotent on an accepted request exactly when every tool message settles at once. */
  lemma SecondTrip(w: WireRequest, bridgeKeyID: string)
    requires NormalizeRequest(w, bridgeKeyID).Ok?
    ensures var req := NormalizeRequest(w, bridgeKeyID).value;
            var once := NormalizeRequest(DenormalizeRequest(req), bridgeKeyID);
            once.Ok? &&
            (NormalizeRequest(DenormalizeRequest(once.value), bridgeKeyID) == once
             <==> forall m | m in req.messages :: SettlesAtOnce(m))
  {
    AcceptedIsHeld(w, bridgeKeyID);
    var req := NormalizeRequest(w, bridgeKeyID).value;
    RequestReadsBack(req);
    var once := SettledRequest(req);
    RequestKeeps(req);
    RequestReadsBack(once);
    var twice := SettledRequest(once);
    assert twice.stopSequences == once.stopSequences;
    forall i | 0 <= i < |req.messages|
      ensures twice.messages[i] == once.messages[i] <==> SettlesAtOnce(req.messages[i])
    {
      assert req.messages[i] in req.messages;
      SecondTripOfMessage(req.messages[i]);
    }
    if forall m | m in req.messages :: SettlesAtOnce(m) {
      assert twice.messages == once.messages;
    }
  }

  /** A tool message that carries two texts and a call. */
  function TwoTextsAndACall(): WireMessage {
    WireMessage(ROLE_TOOL, Some(Arr([TextPart("a"), TextPart("b")])), "", "call_1",
                [WireToolCall("x", "function", "f", NoText)])
  }

  function TextPart(text: string): Json {
    Obj(map["type" := Str("text"), "text" := Str(text)])
  }

  lemma TwoTextsAndACallReads()
    ensures var call := CallBlock("x", "f", map[]);
            var held := [TextBlock("a", map[]), TextBlock("b", map[])] + [call];
            NormalizeMessage(TwoTextsAndACall(), Reading("", [])) ==
              Ok(Reading("", [Message(ROLE_TOOL, [ToolResultBlock(ToolResult("call_1", held, false), map[])])]))
  {
    var w := TwoTextsAndACall();
    FlatMapOne(TextPart("a"), NormalizePart);
    FlatMapOne(TextPart("b"), NormalizePart);
    FlatMapAppend([TextPart("a")], [TextPart("b")], NormalizePart);
    assert [TextPart("a")] + [TextPart("b")] == w.content.value.a;
    PartReadsBack(TextBlock("a", map[]));
    PartReadsBack(TextBlock("b", map[]));
    assert EncodePart(TextBlock("a", map[])) == [TextPart("a")] && EncodePart(TextBlock("b", map[])) == [TextPart("b")];
    assert [TextBlock("a", map[])] + [TextBlock("b", map[])] == [TextBlock("a", map[]), TextBlock("b", map[])];
    assert NormalizeContent(w.content) == Ok([TextBlock("a", map[]), TextBlock("b", map[])]);
    var calls := w.toolCalls;
    assert ParseArguments(calls[0].arguments) == Some(map[]);
    assert calls[1..] == [] && NormalizeCalls(calls[1..]) == Ok([]);
    assert NormalizeCalls(calls).value == [CallBlock("x", "f", map[])] + NormalizeCalls(calls[1..]).value;
    assert NormalizeCalls(calls).value == [CallBlock("x", "f", map[])];
    var held := [TextBlock("a", map[]), TextBlock("b", map[])] + [CallBlock("x", "f", map[])];
    var m := Message(ROLE_TOOL, [ToolResultBlock(ToolResult("call_1", held, false), map[])]);
    assert [] + [m] == [m];
    assert NormalizeMessage(w, Reading("", [])).value.messages == [] + [m];
  }

  lemma DoesNotSettleAtOnce(m: Message)
    requires m == Message(ROLE_TOOL, [ToolResultBlock(ToolResult("call_1",
      [TextBlock("a", map[]), TextBlock("b", map[])] + [CallBlock("x", "f", map[])], false), map[])])
    ensures !SettlesAtOnce(m)
  {
    var texts, call := [TextBlock("a", map[]), TextBlock("b", map[])], CallBlock("x", "f", map[]);
    FlatMapAppend(texts, [call], KeepPlain);
    FlatMapAll(texts, KeepPlain);
    FlatMapOne(call, KeepPlain);
    FlatMapAppend(texts, [call], KeepCall);
    FlatMapNone(texts, KeepCall);
    FlatMapOne(call, KeepCall);
    assert PlainOf(texts + [call]) == texts && |CallsOf(texts + [call])| == 1;
    assert FirstResult(m.content).value.content == texts + [call];
    assert TextOnly(texts) && !Whole(texts);
  }

  /** The first trip keeps two texts, the second merges them. */
  lemma NotIdempotent(bridgeKeyID: string)
    ensures var w := WireRequest("m", [TwoTextsAndACall()], None, None, 0, None, false, [], None, None, "", map[]);
            var req := NormalizeRequest(w, bridgeKeyID);
            && req.Ok?
            && var once := NormalizeRequest(DenormalizeRequest(req.value), bridgeKeyID);
               once.Ok? && NormalizeRequest(DenormalizeRequest(once.value), bridgeKeyID) != once
  {
    var w := WireRequest("m", [TwoTextsAndACall()], None, None, 0, None, false, [], None, None, "", map[]);
    TwoTextsAndACallReads();
    var reading := NormalizeMessage(TwoTextsAndACall(), Reading("", [])).value;
    assert w.messages[1..] == [];
    assert NormalizeMessages(w.messages, Reading("", [])) == Ok(reading);
    SecondTrip(w, bridgeKeyID);
    DoesNotSettleAtOnce(reading.messages[0]);
    assert reading.messages[0] in NormalizeRequest(w, bridgeKeyID).value.messages;
  }

  // ---------- The loops of the source ----------

  method ReadContent(raw: Option<Json>) returns (r: Result<seq<Block>, CodecError>)
    ensures r == NormalizeContent(raw)
  {
    if raw.None? || raw.value.Null? {
      return Ok([]);
    }
    if raw.value.Str? {
      return Ok(if raw.value.s == "" then [] else [TextBlock(raw.value.s, map[])]);
    }
    if !IsPartList(raw.value) {
      return Err(BadContent);
    }
    var parts := raw.value.a;
    var blocks: seq<Block> := [];
    for i := 0 to |parts|
      invariant blocks == FlatMap(parts[..i], NormalizePart)
    {
      FlatMapStep(parts, i, NormalizePart);
      var part := PartFields(parts[i]);
      var typ := StringField(part, "type");
      if typ == "text" || typ == "input_text" {
        blocks := blocks + [TextBlock(StringField(part, "text"), map[])];
      } else if typ == "image_url" {
        blocks := blocks + [ImageBlock(StringField(ObjectField(part, "image_url"), "url"), [], "", map[])];
      } else if typ == "input_image" {
        blocks := blocks + [ImageBlock(StringField(part, "image_url"), [], "", map[])];
      }
    }
    assert parts[..|parts|] == parts;
    r := Ok(blocks);
  }

  function PrependCalls(blocks: seq<Block>, rest: Result<seq<Block>, CodecError>): Result<seq<Block>, CodecError> {
    if rest.Ok? then Ok(blocks + rest.value) else rest
  }

  method AppendCalls(content: seq<Block>, calls: seq<WireToolCall>) returns (r: Result<seq<Block>, CodecError>)
    ensures r == PrependCalls(content, NormalizeCalls(calls))
  {
    var blocks := content;
    assert calls[0..] == calls;
    for i := 0 to |calls|
      invariant PrependCalls(content, NormalizeCalls(calls)) == PrependCalls(blocks, NormalizeCalls(calls[i..]))
    {
      assert calls[i..][0] == calls[i] && calls[i..][1..] == calls[i + 1..];
      var arguments := ParseArguments(calls[i].arguments);
      if arguments.None? {
        return Err(BadToolArguments);
      }
      var call := [CallBlock(calls[i].id, calls[i].name, arguments.value)];
      var rest := NormalizeCalls(calls[i + 1..]);
      assert rest.Ok? ==> (blocks + call) + rest.value == blocks + (call + rest.value);
      blocks := blocks + call;
    }
    assert blocks + [] == blocks;
    r := Ok(blocks);
  }

  /** The message loop: one pass that gathers the system text and appends the other messages. */
  method ReadMessages(wire: seq<WireMessage>) returns (r: Result<Reading, CodecError>)
    ensures r == NormalizeMessages(wire, Reading("", []))
  {
    var system := "";
    var messages: seq<Message> := [];
    assert wire[0..] == wire;
    for i := 0 to |wire|
      invariant NormalizeMessages(wire, Reading("", [])) == NormalizeMessages(wire[i..], Reading(system, messages))
    {
      assert wire[i..][0] == wire[i] && wire[i..][1..] == wire[i + 1..];
      var content := ReadContent(wire[i].content);
      if content.Err? {
        return Err(content.error);
      }
      if IsSystem(wire[i].role) {
        var text := BlocksText(content.value);
        if system == "" {
          system := text;
        } else if text != "" {
          system := system + "\n" + text;
        }
        continue;
      }
      var blocks := AppendCalls(content.value, wire[i].toolCalls);
      if blocks.Err? {
        return Err(blocks.error);
      }
      var held := blocks.value;
      if wire[i].role == ROLE_TOOL {
        held := [ToolResultBlock(ToolResult(wire[i].toolCallID, held, false), map[])];
      }
      messages := messages + [Message(wire[i].role, held)];
    }
    r := Ok(Reading(system, messages));
  }

  method ReadRequest(w: WireRequest, bridgeKeyID: string) returns (r: Result<Request, CodecError>)
    ensures r == NormalizeRequest(w, bridgeKeyID)
  {
    var stops: seq<string> := [];
    if w.stop.Some? && w.stop.value.Str? && w.stop.value.s != "" {
      stops := [w.stop.value.s];
    } else if w.stop.Some? && w.stop.value.Arr? {
      var items := w.stop.value.a;
      for i := 0 to |items|
        invariant stops == FlatMap(items[..i], StringItem)
      {
        FlatMapStep(items, i, StringItem);
        if items[i].Str? {
          stops := stops + [items[i].s];
        }
      }
      assert items[..|items|] == items;
    }
    var tools: seq<ToolDef> := [];
    for i := 0 to |w.tools|
      invariant tools == FlatMap(w.tools[..i], FunctionTool)
    {
      FlatMapStep(w.tools, i, FunctionTool);
      if w.tools[i].typ == "" || w.tools[i].typ == "function" {
        tools := tools + [w.tools[i].function_];
      }
    }
    assert w.tools[..|w.tools|] == w.tools;
    var metadata := w.metadata;
    if w.user != "" {
      metadata := metadata[USER := w.user];
    }
    var reading := ReadMessages(w.messages);
    if reading.Err? {
      return Err(reading.error);
    }
    r := Ok(Request(bridgeKeyID, w.model, reading.value.system, reading.value.messages, tools, [], w.maxTokens,
                    w.temperature, w.topP, stops, w.stream, metadata, Extras(w.toolChoice, w.responseFormat)));
  }

  method WriteContent(blocks: seq<Block>) returns (content: Json)
    ensures content == EncodeContent(blocks)
  {
    var textOnly := true;
    var text := "";
    var i := 0;
    while i < |blocks|
      invariant 0 <= i <= |blocks|
      invariant textOnly && TextOnly(blocks[..i]) && text == TextOf(blocks[..i])
    {
      if blocks[i].typ != CONTENT_TEXT {
        textOnly := false;
        break;
      }
      FlatMapStep(blocks, i, TextPiece);
      text := text + blocks[i].text;
      i := i + 1;
    }
    if textOnly {
      assert blocks[..|blocks|] == blocks;
      return Str(text);
    }
    assert blocks[i] in blocks;
    var parts: seq<Json> := [];
    for j := 0 to |blocks|
      invariant parts == FlatMap(blocks[..j], EncodePart)
    {
      FlatMapStep(blocks, j, EncodePart);
      var b := blocks[j];
      if b.typ == CONTENT_TEXT {
        parts := parts + [Obj(map["type" := Str("text"), "text" := Str(b.text)])];
      } else if b.typ == CONTENT_IMAGE {
        parts := parts
          + [Obj(map["type" := Str("image_url"), "image_url" := Obj(map["url" := Str(b.imageURL)])])];
      }
    }
    assert blocks[..|blocks|] == blocks;
    content := Arr(parts);
  }

  method WriteMessage(m: Message) returns (w: WireMessage)
    ensures w == EncodeMessage(m)
  {
    assert m.content[0..] == m.content;
    if m.role == ROLE_TOOL {
      for i := 0 to |m.content|
        invariant FirstResult(m.content) == FirstResult(m.content[i..])
      {
        assert m.content[i..][0] == m.content[i] && m.content[i..][1..] == m.content[i + 1..];
        if m.content[i].toolResult.Some? {
          var result := m.content[i].toolResult.value;
          var content := WriteContent(result.content);
          return WireMessage(m.role, Some(content), "", result.toolUseID, []);
        }
      }
    }
    var content := WriteContent(m.content);
    var calls: seq<WireToolCall> := [];
    for i := 0 to |m.content|
      invariant calls == FlatMap(m.content[..i], EncodeCall)
    {
      FlatMapStep(m.content, i, EncodeCall);
      if m.content[i].toolUse.Some? {
        var use := m.content[i].toolUse.value;
        calls := calls + [WireToolCall(use.id, "function", use.name, JsonText(Obj(use.arguments)))];
      }
    }
    assert m.content[..|m.content|] == m.content;
    w := WireMessage(m.role, Some(content), "", "", calls);
  }

  method WriteStop(stops: seq<string>) returns (stop: Option<Json>)
    ensures stop == EncodeStop(stops)
  {
    if |stops| == 1 {
      return Some(Str(stops[0]));
    } else if |stops| > 1 {
      var items: seq<Json> := [];
      for i := 0 to |stops|
        invariant |items| == i && forall j | 0 <= j < i :: items[j] == Str(stops[j])
      {
        items := items + [Str(stops[i])];
      }
      assert Arr(items) == EncodeStop(stops).value;
      return Some(Arr(items));
    }
    return None;
  }

  method WriteTools(tools: seq<ToolDef>) returns (out: seq<WireTool>)
    ensures |out| == |tools| && forall j | 0 <= j < |out| :: out[j] == WireTool("function", tools[j])
  {
    out := [];
    for i := 0 to |tools|
      invariant |out| == i && forall j | 0 <= j < i :: out[j] == WireTool("function", tools[j])
    {
      out := out + [WireTool("function", tools[i])];
    }
  }

  /** The system message, if there is a system text, and then the messages in order. */
  method WriteMessages(req: Request) returns (wire: seq<WireMessage>)
    ensures wire == DenormalizeRequest(req).messages
  {
    wire := [];
    if req.system != "" {
      wire := wire + [WireMessage(ROLE_SYSTEM, Some(Str(req.system)), "", "", [])];
    }
    ghost var head := wire;
    for i := 0 to |req.messages|
      invariant |wire| == |head| + i && wire[..|head|] == head
      invariant forall j | 0 <= j < i :: wire[|head| + j] == EncodeMessage(req.messages[j])
    {
      var next := WriteMessage(req.messages[i]);
      wire := wire + [next];
    }
    assert wire == head + seq(|req.messages|, i requires 0 <= i < |req.messages| => EncodeMessage(req.messages[i]));
  }

  method WriteRequest(req: Request) returns (w: WireRequest)
    ensures w == DenormalizeRequest(req)
  {
    var tools := WriteTools(req.tools);
    assert tools == DenormalizeRequest(req).tools;
    var stop := WriteStop(req.stopSequences);
    var messages := WriteMessages(req);
    var toolChoice, responseFormat, user := None, None, "";
    if TOOL_CHOICE in req.extras {
      toolChoice := Some(req.extras[TOOL_CHOICE]);
    }
    if RESPONSE_FORMAT in req.extras {
      responseFormat := Some(req.extras[RESPONSE_FORMAT]);
    }
    if USER in req.metadata && req.metadata[USER] != "" {
      user := req.metadata[USER];
    }
    w := WireRequest(req.modelAlias, messages, req.temperature, req.topP, req.maxTokens, stop, req.stream, tools,
                     toolChoice, responseFormat, user, req.metadata);
  }
}
