/** The Anthropic Messages codec (internal/ir/normalize_anthropic.go, denormalize_anthropic.go).
    The typed outer structs are records; raw JSON fields are optional Json values, None when the
    field is absent. */
module AnthropicCodec {
  import opened Wrappers
  import opened Base64
  import opened Bytes
  import opened Json
  import opened IR

  datatype WireMessage = WireMessage(role: string, content: Option<Json>)

  datatype WireRequest = WireRequest(
    model: string,
    messages: seq<WireMessage>,
    system: Option<Json>,
    maxTokens: int,
    temperature: Option<real>,
    topP: Option<real>,
    stopSequences: seq<string>,
    stream: bool,
    tools: seq<ToolDef>,
    mcpServers: seq<Fields>,
    metadata: map<string, string>,
    toolChoice: Option<Json>)

  /** The part fields that never travel as extras. */
  const RESERVED := ["type", "text", "source", "id", "name", "input", "tool_use_id", "content", "is_error"]
  const SERVER_RESERVED := ["type", "url", "name"]
  const TOOL_CHOICE := "tool_choice"

  // ---------- Reading ----------

  /** A content value is a string, null (read as the empty string), or an array of parts. */
  function NormalizeContent(raw: Json): Result<seq<Block>, CodecError>
    decreases raw, 2
  {
    match raw
    case Null => Ok([TextBlock("", map[])])
    case Str(s) => Ok([TextBlock(s, map[])])
    case Arr(a) => if IsPartList(raw) then NormalizeParts(a) else Err(BadContent)
    case _ => Err(BadContent)
  }

  function NormalizeParts(parts: seq<Json>): Result<seq<Block>, CodecError>
    requires forall i | 0 <= i < |parts| :: parts[i].Obj? || parts[i].Null?
    decreases parts, 1
  {
    if parts == [] then Ok([])
    else
      var first := NormalizePart(parts[0]);
      if first.Err? then first
      else Prepend(first.value, NormalizeParts(parts[1..]))
  }

  function Prepend(blocks: seq<Block>, rest: Result<seq<Block>, CodecError>): Result<seq<Block>, CodecError> {
    if rest.Ok? then Ok(blocks + rest.value) else rest
  }

  /** One part gives one block, none when its type is unknown, or a decoding error. */
  function NormalizePart(p: Json): Result<seq<Block>, CodecError>
    requires p.Obj? || p.Null?
    decreases p, 0
  {
    var part := PartFields(p);
    var typ := StringField(part, "type");
    var extras := Without(part, RESERVED);
    if typ == CONTENT_TEXT then Ok([TextBlock(StringField(part, "text"), extras)])
    else if typ == CONTENT_IMAGE then NormalizeImage(ObjectField(part, "source"), extras)
    else if typ == CONTENT_TOOL_USE then
      var use := ToolUse(StringField(part, "id"), StringField(part, "name"), ObjectField(part, "input"));
      Ok([ToolUseBlock(use, extras)])
    else if typ == CONTENT_TOOL_RESULT then
      var content := if "content" in part then NormalizeContent(part["content"]) else Ok([TextBlock("", map[])]);
      if content.Err? then content
      else
        var isError := "is_error" in part && part["is_error"] == Bool(true);
        Ok([ToolResultBlock(ToolResult(StringField(part, "tool_use_id"), content.value, isError), extras)])
    else if typ == CONTENT_DOCUMENT then
      NormalizeDocument(StringField(part, "title"), ObjectField(part, "source"), extras)
    else Ok([])
  }

  function NormalizeImage(source: Fields, extras: Fields): Result<seq<Block>, CodecError> {
    var mediaType := StringField(source, "media_type");
    var kind := StringField(source, "type");
    if kind == "url" then Ok([ImageBlock(StringField(source, "url"), [], mediaType, extras)])
    else if kind == "base64" then
      var decoded := Decode(StdEncoding, StringField(source, "data"));
      if decoded.None? then Err(BadImageData) else Ok([ImageBlock("", decoded.value, mediaType, extras)])
    else Ok([ImageBlock("", [], mediaType, extras)])
  }

  function NormalizeDocument(title: string, source: Fields, extras: Fields): Result<seq<Block>, CodecError> {
    var data := StringField(source, "data");
    var decoded := if data == "" then Some([]) else Decode(StdEncoding, data);
    if decoded.None? then Err(BadDocumentData)
    else
      var doc := Document(title, StringField(source, "media_type"), decoded.value, StringField(source, "url"));
      Ok([DocumentBlock(doc, extras)])
  }

  /** The system field: a string, or the text of a content value; anything unreadable is "". */
  function ParseSystem(raw: Option<Json>): string {
    if raw.None? || raw.value.Null? then ""
    else if raw.value.Str? then raw.value.s
    else
      var blocks := NormalizeContent(raw.value);
      if blocks.Ok? then BlocksTextFrom(blocks.value, "") else ""
  }

  function NormalizeMessages(messages: seq<WireMessage>): Result<seq<Message>, CodecError> {
    if messages == [] then Ok([])
    else if messages[0].content.None? then Err(BadContent)
    else
      var blocks := NormalizeContent(messages[0].content.value);
      if blocks.Err? then Err(blocks.error)
      else
        var rest := NormalizeMessages(messages[1..]);
        if rest.Err? then rest else Ok([Message(messages[0].role, blocks.value)] + rest.value)
  }

  function NormalizeServer(server: Fields): MCPServer {
    MCPServer(StringField(server, "type"), StringField(server, "url"), StringField(server, "name"),
              Without(server, SERVER_RESERVED))
  }

  function NormalizeRequest(w: WireRequest, bridgeKeyID: string): Result<Request, CodecError> {
    var messages := NormalizeMessages(w.messages);
    if messages.Err? then Err(messages.error)
    else Ok(Request(
      bridgeKeyID, w.model, ParseSystem(w.system), messages.value, w.tools,
      seq(|w.mcpServers|, i requires 0 <= i < |w.mcpServers| => NormalizeServer(w.mcpServers[i])),
      w.maxTokens, w.temperature, w.topP, w.stopSequences, w.stream, w.metadata,
      if w.toolChoice.Some? then map[TOOL_CHOICE := w.toolChoice.value] else map[]))
  }

  // ---------- Writing ----------

  function EncodeContent(blocks: seq<Block>): Json
    decreases blocks, 1
  {
    Arr(EncodeBlocks(blocks))
  }

  function EncodeBlocks(blocks: seq<Block>): seq<Json>
    decreases blocks, 0
  {
    if blocks == [] then []
    else
      var first := EncodeBlock(blocks[0]);
      (if first.Some? then [Obj(first.value)] else []) + EncodeBlocks(blocks[1..])
  }

  /** Extras first, so the fields of the block itself win; a block whose part is missing is dropped. */
  function EncodeBlock(b: Block): Option<Fields>
    decreases b, 3
  {
    var own := OwnFields(b);
    if own.None? then None else Some(b.extras + own.value)
  }

  function OwnFields(b: Block): Option<Fields>
    decreases b, 2
  {
    if b.typ == CONTENT_TEXT then
      Some(map["type" := Str("text"), "text" := Str(b.text)])
    else if b.typ == CONTENT_IMAGE then
      Some(map["type" := Str("image"), "source" := Obj(EncodeSource(b.mediaType, b.imageB64, b.imageURL))])
    else if b.typ == CONTENT_TOOL_USE then
      if b.toolUse.None? then None
      else
        var use := b.toolUse.value;
        Some(map["type" := Str("tool_use"), "id" := Str(use.id), "name" := Str(use.name),
            "input" := Obj(use.arguments)])
    else if b.typ == CONTENT_TOOL_RESULT then
      if b.toolResult.None? then None
      else
        var result := b.toolResult.value;
        Some(map["type" := Str("tool_result"), "tool_use_id" := Str(result.toolUseID),
                 "content" := EncodeContent(result.content)]
             + (if result.isError then map["is_error" := Bool(true)] else map[]))
    else if b.typ == CONTENT_DOCUMENT then
      if b.document.None? then None
      else
        var doc := b.document.value;
        Some(map["type" := Str("document"), "source" := Obj(EncodeSource(doc.mediaType, doc.data, doc.url))]
             + (if doc.name != "" then map["title" := Str(doc.name)] else map[]))
    else Some(map[])
  }

  /** Bytes win over a URL. */
  function EncodeSource(mediaType: string, data: seq<byte>, url: string): Fields {
    if |data| > 0 then
      map["media_type" := Str(mediaType), "type" := Str("base64"), "data" := Str(Encode(StdEncoding, data))]
    else map["media_type" := Str(mediaType), "type" := Str("url"), "url" := Str(url)]
  }

  function EncodeServer(server: MCPServer): Fields {
    map["type" := Str(server.typ)]
    + (if server.url != "" then map["url" := Str(server.url)] else map[])
    + (if server.name != "" then map["name" := Str(server.name)] else map[])
    + server.extras
  }

  function DenormalizeRequest(req: Request): WireRequest {
    WireRequest(
      req.modelAlias,
      seq(|req.messages|, i requires 0 <= i < |req.messages| =>
        WireMessage(req.messages[i].role, Some(EncodeContent(req.messages[i].content)))),
      if req.system != "" then Some(Str(req.system)) else None,
      req.maxTokens, req.temperature, req.topP, req.stopSequences, req.stream, req.tools,
      seq(|req.mcpServers|, i requires 0 <= i < |req.mcpServers| => EncodeServer(req.mcpServers[i])),
      req.metadata,
      if TOOL_CHOICE in req.extras then Some(req.extras[TOOL_CHOICE]) else None)
  }

  // ---------- What the reader produces ----------

  ghost predicate Unreserved(extras: Fields) {
    forall k | k in extras :: k !in RESERVED
  }

  /** The blocks NormalizeContent can produce. */
  ghost predicate Readable(b: Block)
    decreases b
  {
    && Unreserved(b.extras)
    && (|| b == TextBlock(b.text, b.extras)
        || (b == ImageBlock(b.imageURL, b.imageB64, b.mediaType, b.extras) && (b.imageURL == "" || b.imageB64 == []))
        || (b.toolUse.Some? && b == ToolUseBlock(b.toolUse.value, b.extras))
        || (&& b.toolResult.Some?
            && b == ToolResultBlock(b.toolResult.value, b.extras)
            && forall c | c in b.toolResult.value.content :: Readable(c))
        || (&& b.document.Some?
            && b == DocumentBlock(b.document.value, b.extras)
            && b.document.value.name == StringField(b.extras, "title")))
  }

  ghost predicate AllReadable(blocks: seq<Block>) {
    forall b | b in blocks :: Readable(b)
  }

  lemma {:induction false} ContentIsReadable(raw: Json)
    ensures NormalizeContent(raw).Ok? ==> AllReadable(NormalizeContent(raw).value)
    decreases raw, 2
  {
    if raw.Arr? && IsPartList(raw) {
      PartsAreReadable(raw.a);
    }
  }

  lemma {:induction false} PartsAreReadable(parts: seq<Json>)
    requires forall i | 0 <= i < |parts| :: parts[i].Obj? || parts[i].Null?
    ensures NormalizeParts(parts).Ok? ==> AllReadable(NormalizeParts(parts).value)
    decreases parts, 1
  {
    if parts != [] {
      PartIsReadable(parts[0]);
      PartsAreReadable(parts[1..]);
    }
  }

  lemma {:induction false} PartIsReadable(p: Json)
    requires p.Obj? || p.Null?
    ensures NormalizePart(p).Ok? ==> AllReadable(NormalizePart(p).value)
    decreases p, 0
  {
    var part := PartFields(p);
    if StringField(part, "type") != CONTENT_TOOL_RESULT {
      PlainPartIsReadable(p);
    } else if "content" in part {
      ContentIsReadable(part["content"]);
    }
  }

  lemma {:induction false} PlainPartIsReadable(p: Json)
    requires (p.Obj? || p.Null?) && StringField(PartFields(p), "type") != CONTENT_TOOL_RESULT
    ensures NormalizePart(p).Ok? ==> AllReadable(NormalizePart(p).value)
  {
  }

  // ---------- Reading back what was written ----------

  /** A block after one trip over the wire: a document that has bytes loses its URL, at any depth. */
  function Carried(b: Block): Block
    decreases b, 0
  {
    match b.toolResult
    case Some(result) =>
      b.(toolResult := Some(ToolResult(result.toolUseID, CarriedAll(result.content), result.isError)))
    case None =>
      if b.document.Some? && b.document.value.data != [] then
        b.(document := Some(b.document.value.(url := "")))
      else b
  }

  function CarriedAll(blocks: seq<Block>): (r: seq<Block>)
    ensures |r| == |blocks|
    decreases blocks, 1
  {
    if blocks == [] then [] else [Carried(blocks[0])] + CarriedAll(blocks[1..])
  }

  lemma {:induction false} BlocksReadBack(blocks: seq<Block>)
    requires AllReadable(blocks)
    ensures IsPartList(Arr(EncodeBlocks(blocks)))
    ensures NormalizeParts(EncodeBlocks(blocks)) == Ok(CarriedAll(blocks))
    decreases blocks, 1
  {
    if blocks != [] {
      BlockReadsBack(blocks[0]);
      BlocksReadBack(blocks[1..]);
      var first := Obj(EncodeBlock(blocks[0]).value);
      assert EncodeBlocks(blocks)[1..] == EncodeBlocks(blocks[1..]);
    }
  }

  lemma {:induction false} BlockReadsBack(b: Block)
    requires Readable(b)
    ensures EncodeBlock(b).Some?
    ensures NormalizePart(Obj(EncodeBlock(b).value)) == Ok([Carried(b)])
    decreases b, 0
  {
    ExtrasReadBack(b);
    if b.toolResult.Some? {
      BlocksReadBack(b.toolResult.value.content);
      ToolResultReadsBack(b);
    } else if b.document.Some? {
      DocumentReadsBack(b);
    } else if b.toolUse.Some? {
      ToolUseReadsBack(b);
    } else if b.typ == CONTENT_IMAGE {
      ImageReadsBack(b);
    } else {
      TextReadsBack(b);
    }
  }

  /** The reserved names keep a block's extras and its own fields apart. */
  lemma ExtrasReadBack(b: Block)
    requires Readable(b)
    ensures EncodeBlock(b).Some? && Without(EncodeBlock(b).value, RESERVED) == b.extras
  {
    var own := OwnFields(b).value;
    assert RESERVED[0] == "type" && RESERVED[1] == "text" && RESERVED[2] == "source";
    assert RESERVED[3] == "id" && RESERVED[4] == "name" && RESERVED[5] == "input";
    assert RESERVED[6] == "tool_use_id" && RESERVED[7] == "content" && RESERVED[8] == "is_error";
    WithoutOverlay(b.extras, own, RESERVED);
  }

  /** What either reader finds in an encoded source. */
  lemma SourceReadsBack(mediaType: string, data: seq<byte>, url: string)
    ensures var source := EncodeSource(mediaType, data, url);
            && StringField(source, "media_type") == mediaType
            && (data != [] ==>
                  && StringField(source, "type") == "base64" && StringField(source, "url") == ""
                  && StringField(source, "data") != ""
                  && Decode(StdEncoding, StringField(source, "data")) == Some(data))
            && (data == [] ==>
                  StringField(source, "type") == "url" && StringField(source, "url") == url
                    && StringField(source, "data") == "")
  {
    RoundTrip(StdEncoding, data);
  }

  lemma TextReadsBack(b: Block)
    requires Readable(b) && b.typ == CONTENT_TEXT
    requires EncodeBlock(b).Some? && Without(EncodeBlock(b).value, RESERVED) == b.extras
    ensures NormalizePart(Obj(EncodeBlock(b).value)) == Ok([Carried(b)])
  {
  }

  lemma {:induction false} ImageFields(b: Block)
    requires Readable(b) && b.typ == CONTENT_IMAGE
    ensures EncodeBlock(b).Some?
    ensures var part := EncodeBlock(b).value;
            && StringField(part, "type") == CONTENT_IMAGE
            && ObjectField(part, "source") == EncodeSource(b.mediaType, b.imageB64, b.imageURL)
  {
  }

  lemma {:induction false} ImageReadsBack(b: Block)
    requires Readable(b) && b.typ == CONTENT_IMAGE
    requires EncodeBlock(b).Some? && Without(EncodeBlock(b).value, RESERVED) == b.extras
    ensures NormalizePart(Obj(EncodeBlock(b).value)) == Ok([Carried(b)])
  {
    SourceReadsBack(b.mediaType, b.imageB64, b.imageURL);
    ImageFields(b);
  }

  lemma {:induction false} ToolUseFields(b: Block)
    requires Readable(b) && b.toolUse.Some?
    ensures EncodeBlock(b).Some?
    ensures var part, use := EncodeBlock(b).value, b.toolUse.value;
            && StringField(part, "type") == CONTENT_TOOL_USE
            && StringField(part, "id") == use.id && StringField(part, "name") == use.name
            && ObjectField(part, "input") == use.arguments
  {
  }

  lemma {:induction false} ToolUseReadsBack(b: Block)
    requires Readable(b) && b.toolUse.Some?
    requires EncodeBlock(b).Some? && Without(EncodeBlock(b).value, RESERVED) == b.extras
    ensures NormalizePart(Obj(EncodeBlock(b).value)) == Ok([Carried(b)])
  {
    ToolUseFields(b);
  }

  lemma {:induction false} ToolResultFields(b: Block)
    requires Readable(b) && b.toolResult.Some?
    ensures EncodeBlock(b).Some?
    ensures var part, result := EncodeBlock(b).value, b.toolResult.value;
            && StringField(part, "type") == CONTENT_TOOL_RESULT
            && StringField(part, "tool_use_id") == result.toolUseID
            && "content" in part && part["content"] == EncodeContent(result.content)
            && ("is_error" in part && part["is_error"] == Bool(true) <==> result.isError)
  {
    assert RESERVED[8] == "is_error";
  }

  lemma ToolResultReadsBack(b: Block)
    requires Readable(b) && b.toolResult.Some?
    requires EncodeBlock(b).Some? && Without(EncodeBlock(b).value, RESERVED) == b.extras
    requires NormalizeContent(EncodeContent(b.toolResult.value.content)) == Ok(CarriedAll(b.toolResult.value.content))
    ensures NormalizePart(Obj(EncodeBlock(b).value)) == Ok([Carried(b)])
  {
    ToolResultFields(b);
  }

  lemma DocumentFields(b: Block)
    requires Readable(b) && b.document.Some?
    ensures EncodeBlock(b).Some?
    ensures var part, doc := EncodeBlock(b).value, b.document.value;
            && StringField(part, "type") == CONTENT_DOCUMENT
            && StringField(part, "title") == doc.name
            && ObjectField(part, "source") == EncodeSource(doc.mediaType, doc.data, doc.url)
  {
  }

  lemma DocumentReadsBack(b: Block)
    requires Readable(b) && b.document.Some?
    requires EncodeBlock(b).Some? && Without(EncodeBlock(b).value, RESERVED) == b.extras
    ensures NormalizePart(Obj(EncodeBlock(b).value)) == Ok([Carried(b)])
  {
    var doc := b.document.value;
    var part := EncodeBlock(b).value;
    var source := EncodeSource(doc.mediaType, doc.data, doc.url);
    DocumentFields(b);
    assert NormalizePart(Obj(part)) == NormalizeDocument(doc.name, source, b.extras);
    SourceReadsBack(doc.mediaType, doc.data, doc.url);
  }

  // ---------- Whole requests ----------

  /** What a request must be for the Anthropic form to carry it: readable blocks, unreserved server extras. */
  ghost predicate Carriable(req: Request) {
    && (forall m | m in req.messages :: AllReadable(m.content))
    && (forall s | s in req.mcpServers :: forall k | k in s.extras :: k !in SERVER_RESERVED)
  }

  /** A request after one trip: documents as in Carried, and no extras but tool_choice. */
  function CarriedRequest(req: Request): Request {
    req.(messages := seq(|req.messages|, i requires 0 <= i < |req.messages| => CarriedMessage(req.messages[i])),
         extras := map k | k in req.extras && k == TOOL_CHOICE :: req.extras[k])
  }

  function CarriedMessage(m: Message): Message {
    Message(m.role, CarriedAll(m.content))
  }

  lemma ServerFields(s: MCPServer)
    requires forall k | k in s.extras :: k !in SERVER_RESERVED
    ensures var server := EncodeServer(s);
            && StringField(server, "type") == s.typ && StringField(server, "url") == s.url
            && StringField(server, "name") == s.name
  {
    assert SERVER_RESERVED[0] == "type" && SERVER_RESERVED[1] == "url" && SERVER_RESERVED[2] == "name";
  }

  lemma ServerExtras(s: MCPServer)
    requires forall k | k in s.extras :: k !in SERVER_RESERVED
    ensures Without(EncodeServer(s), SERVER_RESERVED) == s.extras
  {
    assert SERVER_RESERVED[0] == "type" && SERVER_RESERVED[1] == "url" && SERVER_RESERVED[2] == "name";
  }

  lemma ServerReadsBack(s: MCPServer)
    requires forall k | k in s.extras :: k !in SERVER_RESERVED
    ensures NormalizeServer(EncodeServer(s)) == s
  {
    ServerFields(s);
    ServerExtras(s);
  }

  lemma {:induction false} MessagesReadBack(messages: seq<Message>, wire: seq<WireMessage>)
    requires forall m | m in messages :: AllReadable(m.content)
    requires |wire| == |messages|
    requires forall i | 0 <= i < |wire| ::
        wire[i] == WireMessage(messages[i].role, Some(EncodeContent(messages[i].content)))
    ensures NormalizeMessages(wire).Ok? && |NormalizeMessages(wire).value| == |messages|
    ensures forall i | 0 <= i < |messages| :: NormalizeMessages(wire).value[i] == CarriedMessage(messages[i])
  {
    if messages != [] {
      BlocksReadBack(messages[0].content);
      MessagesReadBack(messages[1..], wire[1..]);
    }
  }

  /** Encoding a carriable request and reading it back gives its carried form, whatever wrote it. */
  lemma RequestReadsBack(req: Request)
    requires Carriable(req)
    ensures NormalizeRequest(DenormalizeRequest(req), req.bridgeKeyID) == Ok(CarriedRequest(req))
  {
    var wire := DenormalizeRequest(req);
    MessagesReadBack(req.messages, wire.messages);
    forall i | 0 <= i < |req.mcpServers| ensures NormalizeServer(wire.mcpServers[i]) == req.mcpServers[i] {
      assert req.mcpServers[i] in req.mcpServers;
      ServerReadsBack(req.mcpServers[i]);
    }
    var back := NormalizeRequest(wire, req.bridgeKeyID).value;
    assert back.mcpServers == req.mcpServers;
    assert back.messages == CarriedRequest(req).messages;
    assert back.extras == CarriedRequest(req).extras;
  }

  lemma {:induction false} MessagesAreReadable(wire: seq<WireMessage>)
    requires NormalizeMessages(wire).Ok?
    ensures forall m | m in NormalizeMessages(wire).value :: AllReadable(m.content)
  {
    if wire != [] {
      ContentIsReadable(wire[0].content.value);
      MessagesAreReadable(wire[1..]);
    }
  }

  lemma AcceptedIsCarriable(w: WireRequest, bridgeKeyID: string)
    requires NormalizeRequest(w, bridgeKeyID).Ok?
    ensures Carriable(NormalizeRequest(w, bridgeKeyID).value)
  {
    MessagesAreReadable(w.messages);
  }

  // ---------- The exact condition ----------

  /** No document source, at any depth, holds both a URL and data that decodes to some bytes. */
  ghost predicate SingleSourced(raw: Json)
    decreases raw, 1
  {
    raw.Arr? ==> forall i | 0 <= i < |raw.a| :: PartSingleSourced(raw.a[i])
  }

  ghost predicate PartSingleSourced(p: Json)
    decreases p, 0
  {
    p.Obj? ==>
      var typ := StringField(p.o, "type");
      var source := ObjectField(p.o, "source");
      && (typ == CONTENT_DOCUMENT && StringField(source, "url") != "" ==>
            Decode(StdEncoding, StringField(source, "data")) in {None, Some([])})
      && (typ == CONTENT_TOOL_RESULT && "content" in p.o ==> SingleSourced(p.o["content"]))
  }

  ghost predicate RequestSingleSourced(w: WireRequest) {
    forall m | m in w.messages :: m.content.Some? ==> SingleSourced(m.content.value)
  }

  lemma {:induction false} ContentCarriedExactly(raw: Json)
    requires NormalizeContent(raw).Ok?
    ensures CarriedAll(NormalizeContent(raw).value) == NormalizeContent(raw).value <==> SingleSourced(raw)
    decreases raw, 2
  {
    if raw.Arr? {
      PartsCarriedExactly(raw.a);
    }
  }

  lemma {:induction false} PartsCarriedExactly(parts: seq<Json>)
    requires forall i | 0 <= i < |parts| :: parts[i].Obj? || parts[i].Null?
    requires NormalizeParts(parts).Ok?
    ensures CarriedAll(NormalizeParts(parts).value) == NormalizeParts(parts).value
            <==> forall i | 0 <= i < |parts| :: PartSingleSourced(parts[i])
    decreases parts, 1
  {
    if parts != [] {
      PartCarriedExactly(parts[0]);
      PartsCarriedExactly(parts[1..]);
      var first, rest := NormalizePart(parts[0]).value, NormalizeParts(parts[1..]).value;
      CarriedWhole(first);
      CarriedWhole(rest);
      CarriedWhole(first + rest);
      assert (forall i | 0 <= i < |parts| :: PartSingleSourced(parts[i])) <==>
             PartSingleSourced(parts[0]) && forall i | 0 <= i < |parts[1..]| :: PartSingleSourced(parts[1..][i]);
    }
  }

  lemma {:induction false} CarriedPointwise(blocks: seq<Block>, i: nat)
    requires i < |blocks|
    ensures CarriedAll(blocks)[i] == Carried(blocks[i])
  {
    if i > 0 {
      CarriedPointwise(blocks[1..], i - 1);
    }
  }

  /** Nothing is lost from a list exactly when nothing is lost from any block. */
  lemma CarriedWhole(blocks: seq<Block>)
    ensures CarriedAll(blocks) == blocks <==> forall b | b in blocks :: Carried(b) == b
  {
    forall i | 0 <= i < |blocks| ensures CarriedAll(blocks)[i] == Carried(blocks[i]) {
      CarriedPointwise(blocks, i);
    }
    if CarriedAll(blocks) == blocks {
      forall b | b in blocks ensures Carried(b) == b {
        var i :| 0 <= i < |blocks| && blocks[i] == b;
      }
    }
  }

  lemma {:induction false} PartCarriedExactly(p: Json)
    requires p.Obj? || p.Null?
    requires NormalizePart(p).Ok?
    ensures CarriedAll(NormalizePart(p).value) == NormalizePart(p).value <==> PartSingleSourced(p)
    decreases p, 0
  {
    var part := PartFields(p);
    var blocks := NormalizePart(p).value;
    if blocks != [] {
      assert blocks == [blocks[0]] && CarriedAll(blocks) == [Carried(blocks[0])];
      if StringField(part, "type") == CONTENT_TOOL_RESULT {
        if "content" in part {
          ContentCarriedExactly(part["content"]);
        } else {
          CarriedWhole([TextBlock("", map[])]);
        }
      } else if StringField(part, "type") == CONTENT_DOCUMENT {
        assert Decode(StdEncoding, "") == Some([]);
      }
    }
  }

  lemma {:induction false} MessagesCarriedExactly(wire: seq<WireMessage>)
    requires NormalizeMessages(wire).Ok?
    ensures (forall m | m in NormalizeMessages(wire).value :: CarriedAll(m.content) == m.content)
            <==> forall m | m in wire :: m.content.Some? ==> SingleSourced(m.content.value)
  {
    if wire != [] {
      var first, rest := NormalizeContent(wire[0].content.value).value, NormalizeMessages(wire[1..]).value;
      ContentCarriedExactly(wire[0].content.value);
      MessagesCarriedExactly(wire[1..]);
      MessagesCarriedOn(Message(wire[0].role, first), rest);
      MessagesSingleSourcedOn(wire);
    }
  }

  lemma MessagesCarriedOn(first: Message, rest: seq<Message>)
    ensures (forall m | m in [first] + rest :: CarriedAll(m.content) == m.content)
        <==> CarriedAll(first.content) == first.content && forall m | m in rest :: CarriedAll(m.content) == m.content
  {
  }

  lemma MessagesSingleSourcedOn(wire: seq<WireMessage>)
    requires wire != []
    ensures (forall m | m in wire :: m.content.Some? ==> SingleSourced(m.content.value))
        <==> (wire[0].content.Some? ==> SingleSourced(wire[0].content.value))
             && forall m | m in wire[1..] :: m.content.Some? ==> SingleSourced(m.content.value)
  {
    assert wire == [wire[0]] + wire[1..];
  }

  /** Every accepted request survives the trip exactly when no document source names both bytes and a URL. */
  lemma RequestRoundTrip(w: WireRequest, bridgeKeyID: string)
    requires NormalizeRequest(w, bridgeKeyID).Ok?
    ensures var req := NormalizeRequest(w, bridgeKeyID).value;
            NormalizeRequest(DenormalizeRequest(req), bridgeKeyID) == Ok(CarriedRequest(req))
    ensures var req := NormalizeRequest(w, bridgeKeyID).value;
            NormalizeRequest(DenormalizeRequest(req), bridgeKeyID) == Ok(req) <==> RequestSingleSourced(w)
  {
    var req := NormalizeRequest(w, bridgeKeyID).value;
    AcceptedIsCarriable(w, bridgeKeyID);
    RequestReadsBack(req);
    MessagesCarriedExactly(w.messages);
    var carried := CarriedRequest(req);
    assert carried.extras == req.extras;
    if forall m | m in req.messages :: CarriedAll(m.content) == m.content {
      forall i | 0 <= i < |req.messages| ensures carried.messages[i] == req.messages[i] {
        assert req.messages[i] in req.messages;
      }
      assert carried.messages == req.messages;
    } else {
      var m :| m in req.messages && CarriedAll(m.content) != m.content;
      var i :| 0 <= i < |req.messages| && req.messages[i] == m;
      assert carried.messages[i] != req.messages[i];
    }
  }

  /** A document source with one byte of data and a URL. */
  function TwoSourced(): Json {
    Arr([Obj(map[
      "type" := Str(CONTENT_DOCUMENT),
      "source" := Obj(map["data" := Str(Encode(StdEncoding, [65])), "url" := Str("u")])])])
  }

  /** It loses its URL on the trip. */
  lemma DocumentLosesURL(bridgeKeyID: string, w: WireRequest)
    requires NormalizeRequest(w, bridgeKeyID).Ok?
    requires exists m :: m in w.messages && m.content == Some(TwoSourced())
    ensures NormalizeRequest(DenormalizeRequest(NormalizeRequest(w, bridgeKeyID).value), bridgeKeyID)
      != Ok(NormalizeRequest(w, bridgeKeyID).value)
  {
    var part := TwoSourced().a[0];
    var source := ObjectField(part.o, "source");
    RoundTrip(StdEncoding, [65]);
    assert StringField(part.o, "type") == CONTENT_DOCUMENT && StringField(source, "url") == "u";
    assert StringField(source, "data") == Encode(StdEncoding, [65]);
    assert !PartSingleSourced(part);
    RequestRoundTrip(w, bridgeKeyID);
  }

  /** One user message with that document. */
  function TwoSourcedRequest(): WireRequest {
    WireRequest("m", [WireMessage("user", Some(TwoSourced()))], None, 0, None, None, [], false, [], [], map[], None)
  }

  lemma TwoSourcedIsAccepted()
    ensures NormalizeContent(TwoSourced()).Ok?
  {
    var part := TwoSourced().a[0];
    var source := ObjectField(part.o, "source");
    RoundTrip(StdEncoding, [65]);
    assert StringField(part.o, "type") == CONTENT_DOCUMENT;
    assert StringField(source, "data") == Encode(StdEncoding, [65]);
    assert NormalizePart(part).Ok?;
    assert TwoSourced().a[1..] == [] && NormalizeParts([]) == Ok([]);
  }

  /** It is accepted, and does not survive. */
  lemma TwoSourcedRequestIsLost(bridgeKeyID: string)
    ensures var req := NormalizeRequest(TwoSourcedRequest(), bridgeKeyID);
      req.Ok? && NormalizeRequest(DenormalizeRequest(req.value), bridgeKeyID) != req
  {
    var w := TwoSourcedRequest();
    TwoSourcedIsAccepted();
    assert w.messages[1..] == [] && NormalizeMessages([]) == Ok([]);
    assert w.messages[0] in w.messages;
    DocumentLosesURL(bridgeKeyID, w);
  }

  // ---------- The loops of the source ----------

  lemma PrependNothing(r: Result<seq<Block>, CodecError>)
    ensures Prepend([], r) == r
  {
    assert r.Ok? ==> [] + r.value == r.value;
  }

  lemma PrependTwice(a: seq<Block>, b: seq<Block>, r: Result<seq<Block>, CodecError>)
    ensures Prepend(a + b, r) == Prepend(a, Prepend(b, r))
  {
    assert r.Ok? ==> (a + b) + r.value == a + (b + r.value);
  }

  method ReadContent(raw: Json) returns (r: Result<seq<Block>, CodecError>)
    ensures r == NormalizeContent(raw)
    decreases raw
  {
    if raw.Null? {
      return Ok([TextBlock("", map[])]);
    }
    if raw.Str? {
      return Ok([TextBlock(raw.s, map[])]);
    }
    if !IsPartList(raw) {
      return Err(BadContent);
    }
    var parts := raw.a;
    var blocks: seq<Block> := [];
    PrependNothing(NormalizeParts(parts));
    assert parts[0..] == parts;
    for i := 0 to |parts|
      invariant NormalizeParts(parts) == Prepend(blocks, NormalizeParts(parts[i..]))
    {
      assert parts[i..][0] == parts[i] && parts[i..][1..] == parts[i + 1..];
      var part := PartFields(parts[i]);
      var typ := StringField(part, "type");
      var extras := CopyExtras(part, RESERVED);
      var produced: Result<seq<Block>, CodecError> := Ok([]);
      if typ == CONTENT_TEXT {
        produced := Ok([TextBlock(StringField(part, "text"), extras)]);
      } else if typ == CONTENT_IMAGE {
        produced := NormalizeImage(ObjectField(part, "source"), extras);
      } else if typ == CONTENT_TOOL_USE {
        var use := ToolUse(StringField(part, "id"), StringField(part, "name"), ObjectField(part, "input"));
        produced := Ok([ToolUseBlock(use, extras)]);
      } else if typ == CONTENT_TOOL_RESULT {
        var content: Result<seq<Block>, CodecError> := Ok([TextBlock("", map[])]);
        if "content" in part {
          content := ReadContent(part["content"]);
        }
        if content.Err? {
          return content;
        }
        var isError := "is_error" in part && part["is_error"] == Bool(true);
        produced := Ok([ToolResultBlock(ToolResult(StringField(part, "tool_use_id"), content.value, isError), extras)]);
      } else if typ == CONTENT_DOCUMENT {
        produced := NormalizeDocument(StringField(part, "title"), ObjectField(part, "source"), extras);
      }
      assert produced == NormalizePart(parts[i]);
      if produced.Err? {
        return produced;
      }
      PrependTwice(blocks, produced.value, NormalizeParts(parts[i + 1..]));
      blocks := blocks + produced.value;
    }
    PrependTwice(blocks, [], Ok([]));
    assert blocks + [] == blocks;
    r := Ok(blocks);
  }

  method WriteContent(blocks: seq<Block>) returns (content: Json)
    ensures content == EncodeContent(blocks)
    decreases blocks, 1
  {
    var out: seq<Json> := [];
    assert blocks[0..] == blocks;
    for i := 0 to |blocks|
      invariant EncodeBlocks(blocks) == out + EncodeBlocks(blocks[i..])
    {
      assert blocks[i..][0] == blocks[i] && blocks[i..][1..] == blocks[i + 1..];
      var block := WriteBlock(blocks[i]);
      if block.Some? {
        out := out + [Obj(block.value)];
      }
    }
    content := Arr(out);
  }

  method WriteSource(mediaType: string, data: seq<byte>, url: string) returns (source: Fields)
    ensures source == EncodeSource(mediaType, data, url)
  {
    source := map["media_type" := Str(mediaType)];
    if |data| > 0 {
      source := source["type" := Str("base64")];
      source := source["data" := Str(Encode(StdEncoding, data))];
    } else {
      source := source["type" := Str("url")];
      source := source["url" := Str(url)];
    }
  }

  method WriteToolUse(b: Block, use: ToolUse) returns (part: Fields)
    requires b.typ == CONTENT_TOOL_USE && b.toolUse == Some(use)
    ensures part == b.extras + OwnFields(b).value
  {
    part := b.extras;
    part := part["type" := Str("tool_use")];
    part := part["id" := Str(use.id)];
    part := part["name" := Str(use.name)];
    part := part["input" := Obj(use.arguments)];
  }

  method WriteDocument(b: Block, doc: Document) returns (part: Fields)
    requires b.typ == CONTENT_DOCUMENT && b.document == Some(doc)
    ensures part == b.extras + OwnFields(b).value
  {
    part := b.extras;
    part := part["type" := Str("document")];
    if doc.name != "" {
      part := part["title" := Str(doc.name)];
    }
    var source := WriteSource(doc.mediaType, doc.data, doc.url);
    part := part["source" := Obj(source)];
  }

  method WriteToolResult(b: Block, result: ToolResult) returns (part: Fields)
    requires b.typ == CONTENT_TOOL_RESULT && b.toolResult == Some(result)
    ensures part == b.extras + OwnFields(b).value
    decreases b, 0
  {
    var content := WriteContent(result.content);
    part := b.extras;
    part := part["type" := Str("tool_result")];
    part := part["tool_use_id" := Str(result.toolUseID)];
    part := part["content" := content];
    if result.isError {
      part := part["is_error" := Bool(true)];
    }
  }

  /** A copy of the extras, overlaid with the fields of the block's type; nothing when its part is missing. */
  method WriteBlock(b: Block) returns (out: Option<Fields>)
    ensures out == EncodeBlock(b)
    decreases b, 1
  {
    var part := b.extras;
    if b.typ == CONTENT_TEXT {
      part := part["type" := Str("text")];
      part := part["text" := Str(b.text)];
    } else if b.typ == CONTENT_IMAGE {
      part := part["type" := Str("image")];
      var source := WriteSource(b.mediaType, b.imageB64, b.imageURL);
      part := part["source" := Obj(source)];
    } else if b.typ == CONTENT_TOOL_USE {
      if b.toolUse.None? {
        return None;
      }
      part := WriteToolUse(b, b.toolUse.value);
    } else if b.typ == CONTENT_TOOL_RESULT {
      if b.toolResult.None? {
        return None;
      }
      part := WriteToolResult(b, b.toolResult.value);
    } else if b.typ == CONTENT_DOCUMENT {
      if b.document.None? {
        return None;
      }
      part := WriteDocument(b, b.document.value);
    }
    assert part == b.extras + OwnFields(b).value;
    out := Some(part);
  }

  function PrependMessages(messages: seq<Message>, rest: Result<seq<Message>, CodecError>)
    : Result<seq<Message>, CodecError>
  {
    if rest.Ok? then Ok(messages + rest.value) else rest
  }

  method ReadMessages(wire: seq<WireMessage>) returns (r: Result<seq<Message>, CodecError>)
    ensures r == NormalizeMessages(wire)
  {
    var messages: seq<Message> := [];
    assert wire[0..] == wire;
    assert NormalizeMessages(wire).Ok? ==> [] + NormalizeMessages(wire).value == NormalizeMessages(wire).value;
    for i := 0 to |wire|
      invariant NormalizeMessages(wire) == PrependMessages(messages, NormalizeMessages(wire[i..]))
    {
      assert wire[i..][0] == wire[i] && wire[i..][1..] == wire[i + 1..];
      if wire[i].content.None? {
        return Err(BadContent);
      }
      var blocks := ReadContent(wire[i].content.value);
      if blocks.Err? {
        return Err(blocks.error);
      }
      var next := [Message(wire[i].role, blocks.value)];
      var rest := NormalizeMessages(wire[i + 1..]);
      assert rest.Ok? ==> (messages + next) + rest.value == messages + (next + rest.value);
      messages := messages + next;
    }
    assert messages + [] == messages;
    r := Ok(messages);
  }

  method ReadRequest(w: WireRequest, bridgeKeyID: string) returns (r: Result<Request, CodecError>)
    ensures r == NormalizeRequest(w, bridgeKeyID)
  {
    var extras: Fields := map[];
    if w.toolChoice.Some? {
      extras := extras[TOOL_CHOICE := w.toolChoice.value];
    }
    var servers: seq<MCPServer> := [];
    for i := 0 to |w.mcpServers|
      invariant |servers| == i
      invariant forall j | 0 <= j < i :: servers[j] == NormalizeServer(w.mcpServers[j])
    {
      var server := w.mcpServers[i];
      var rest := CopyExtras(server, SERVER_RESERVED);
      servers := servers
        + [MCPServer(StringField(server, "type"), StringField(server, "url"), StringField(server, "name"), rest)];
    }
    var messages := ReadMessages(w.messages);
    if messages.Err? {
      return Err(messages.error);
    }
    assert servers == seq(|w.mcpServers|, i requires 0 <= i < |w.mcpServers| => NormalizeServer(w.mcpServers[i]));
    r := Ok(Request(bridgeKeyID, w.model, ParseSystem(w.system), messages.value, w.tools, servers, w.maxTokens,
                    w.temperature, w.topP, w.stopSequences, w.stream, w.metadata, extras));
  }

  method WriteServer(server: MCPServer) returns (m: Fields)
    ensures m == EncodeServer(server)
  {
    m := map["type" := Str(server.typ)];
    if server.url != "" {
      m := m["url" := Str(server.url)];
    }
    if server.name != "" {
      m := m["name" := Str(server.name)];
    }
    m := m + server.extras;
  }

  method WriteRequest(req: Request) returns (w: WireRequest)
    ensures w == DenormalizeRequest(req)
  {
    var servers: seq<Fields> := [];
    for i := 0 to |req.mcpServers|
      invariant |servers| == i
      invariant forall j | 0 <= j < i :: servers[j] == EncodeServer(req.mcpServers[j])
    {
      var server := WriteServer(req.mcpServers[i]);
      servers := servers + [server];
    }
    var messages: seq<WireMessage> := [];
    for i := 0 to |req.messages|
      invariant |messages| == i
      invariant forall j | 0 <= j < i ::
          messages[j] == WireMessage(req.messages[j].role, Some(EncodeContent(req.messages[j].content)))
    {
      var content := WriteContent(req.messages[i].content);
      messages := messages + [WireMessage(req.messages[i].role, Some(content))];
    }
    w := WireRequest(req.modelAlias, messages, if req.system != "" then Some(Str(req.system)) else None,
                     req.maxTokens, req.temperature, req.topP, req.stopSequences, req.stream, req.tools, servers,
                     req.metadata, if TOOL_CHOICE in req.extras then Some(req.extras[TOOL_CHOICE]) else None);
  }
}
