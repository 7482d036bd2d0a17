/** What reading an Anthropic request makes of the wire, said about the JSON alone: which contents are accepted,
    the texts at every depth, the blocks' types, and the system text. */
module AnthropicReading {
  import opened Wrappers
  import opened Base64
  import opened Bytes
  import opened Json
  import Seqs
  import opened IR
  import opened AnthropicCodec

  // ---------- On the JSON alone ----------

  /** What a tool result holds: its content, or null when there is none. */
  function Inside(part: Json): (raw: Json)
    ensures raw == Null || raw < part
  {
    var fields := PartFields(part);
    if "content" in fields then fields["content"] else Null
  }

  /** The texts of a content value at every depth, in order; null is the empty string. */
  function WireTexts(raw: Json): seq<string>
    decreases raw, 1
  {
    match raw
    case Null => [""]
    case Str(s) => [s]
    case Arr(parts) => PartTexts(parts)
    case _ => []
  }

  function PartTexts(parts: seq<Json>): seq<string>
    decreases parts, 0
  {
    if parts == [] then []
    else
      var first :=
        if KindOf(parts[0]) == CONTENT_TEXT then [StringField(PartFields(parts[0]), "text")]
        else if KindOf(parts[0]) == CONTENT_TOOL_RESULT then
          (if Inside(parts[0]) == Null then [""] else WireTexts(Inside(parts[0])))
        else [];
      first + PartTexts(parts[1..])
  }

  /** The texts of blocks at every depth, in order. */
  function DeepTexts(blocks: seq<Block>): seq<string> {
    if blocks == [] then []
    else
      var b := blocks[0];
      var first :=
        if b.typ == CONTENT_TEXT then [b.text]
        else if b.toolResult.Some? then DeepTexts(b.toolResult.value.content)
        else [];
      first + DeepTexts(blocks[1..])
  }

  /** The bytes of a source are base64 text. */
  predicate Decodes(source: Fields) {
    Decode(StdEncoding, StringField(source, "data")).Some?
  }

  /** What is wrong with a content value, if anything: it must be a string, null, or a list of objects and nulls. The
      first part at fault decides: inline image bytes or document bytes that are not base64, or a tool result whose
      content is at fault. */
  function Fault(raw: Json): Option<CodecError>
    decreases raw, 1
  {
    if raw.Null? || raw.Str? then None else if IsPartList(raw) then FirstFault(raw.a) else Some(BadContent)
  }

  function FirstFault(parts: seq<Json>): Option<CodecError>
    decreases parts, 0
  {
    if parts == [] then None
    else
      var source := ObjectField(PartFields(parts[0]), "source");
      if KindOf(parts[0]) == CONTENT_IMAGE && StringField(source, "type") == "base64" && !Decodes(source) then
        Some(BadImageData)
      else if KindOf(parts[0]) == CONTENT_DOCUMENT && StringField(source, "data") != "" && !Decodes(source) then
        Some(BadDocumentData)
      else if KindOf(parts[0]) == CONTENT_TOOL_RESULT && Inside(parts[0]) != Null && Fault(Inside(parts[0])).Some? then
        Fault(Inside(parts[0]))
      else FirstFault(parts[1..])
  }

  predicate Acceptable(raw: Json) {
    Fault(raw).None?
  }

  /** The first fault of some messages; a message without content is at fault. */
  function MessageFault(wire: seq<WireMessage>): Option<CodecError> {
    if wire == [] then None
    else if wire[0].content.None? then Some(BadContent)
    else if Fault(wire[0].content.value).Some? then Fault(wire[0].content.value)
    else MessageFault(wire[1..])
  }

  const KINDS := {CONTENT_TEXT, CONTENT_IMAGE, CONTENT_TOOL_USE, CONTENT_TOOL_RESULT, CONTENT_DOCUMENT}

  /** The types of the parts that have a known one. */
  function WireKinds(parts: seq<Json>): seq<string> {
    if parts == [] then []
    else (if KindOf(parts[0]) in KINDS then [KindOf(parts[0])] else []) + WireKinds(parts[1..])
  }

  function BlockKinds(blocks: seq<Block>): (r: seq<string>)
    ensures |r| == |blocks| && forall i | 0 <= i < |blocks| :: r[i] == blocks[i].typ
  {
    seq(|blocks|, i requires 0 <= i < |blocks| => blocks[i].typ)
  }

  // ---------- What is read ----------

  lemma {:induction false} DeepTextsAppend(a: seq<Block>, b: seq<Block>)
    ensures DeepTexts(a + b) == DeepTexts(a) + DeepTexts(b)
  {
    if a == [] {
      assert a + b == b;
    } else {
      assert (a + b)[1..] == a[1..] + b;
      DeepTextsAppend(a[1..], b);
    }
  }

  lemma {:induction false} DeepTextsOne(b: Block)
    ensures DeepTexts([b])
      == if b.typ == CONTENT_TEXT then [b.text]
         else if b.toolResult.Some? then DeepTexts(b.toolResult.value.content)
         else []
  {
    assert [b][1..] == [];
  }

  /** Reading keeps every text, at every depth and in order. */
  lemma {:induction false} ReadingKeepsTexts(raw: Json)
    requires NormalizeContent(raw).Ok?
    ensures DeepTexts(NormalizeContent(raw).value) == WireTexts(raw)
    decreases raw, 2
  {
    match raw
    case Null => DeepTextsOne(TextBlock("", map[]));
    case Str(s) => DeepTextsOne(TextBlock(s, map[]));
    case Arr(parts) => PartsKeepTexts(parts);
    case _ =>
  }

  lemma {:induction false} PartsKeepTexts(parts: seq<Json>)
    requires forall i | 0 <= i < |parts| :: parts[i].Obj? || parts[i].Null?
    requires NormalizeParts(parts).Ok?
    ensures DeepTexts(NormalizeParts(parts).value) == PartTexts(parts)
    decreases parts, 1
  {
    if parts != [] {
      PartKeepsTexts(parts[0]);
      PartsKeepTexts(parts[1..]);
      DeepTextsAppend(NormalizePart(parts[0]).value, NormalizeParts(parts[1..]).value);
    }
  }

  lemma {:induction false} PartKeepsTexts(p: Json)
    requires (p.Obj? || p.Null?) && NormalizePart(p).Ok?
    ensures DeepTexts(NormalizePart(p).value)
      == if KindOf(p) == CONTENT_TEXT then [StringField(PartFields(p), "text")]
         else if KindOf(p) == CONTENT_TOOL_RESULT then
           (if Inside(p) == Null then [""] else WireTexts(Inside(p)))
         else []
    decreases p, 0
  {
    var blocks := NormalizePart(p).value;
    if blocks != [] {
      assert blocks == [blocks[0]];
      DeepTextsOne(blocks[0]);
    }
    if KindOf(p) == CONTENT_TOOL_RESULT {
      if "content" in PartFields(p) {
        ReadingKeepsTexts(PartFields(p)["content"]);
      } else {
        DeepTextsOne(TextBlock("", map[]));
      }
    }
  }

  /** A content value is read exactly when it has no fault, and otherwise its fault is the error. */
  lemma {:induction false} AcceptedExactly(raw: Json)
    ensures var r := NormalizeContent(raw); Fault(raw) == if r.Ok? then None else Some(r.error)
    decreases raw, 2
  {
    if IsPartList(raw) {
      PartsAcceptedExactly(raw.a);
    }
  }

  lemma {:induction false} PartsAcceptedExactly(parts: seq<Json>)
    requires forall i | 0 <= i < |parts| :: parts[i].Obj? || parts[i].Null?
    ensures var r := NormalizeParts(parts); FirstFault(parts) == if r.Ok? then None else Some(r.error)
    decreases parts, 1
  {
    if parts != [] {
      if KindOf(parts[0]) == CONTENT_TOOL_RESULT && "content" in PartFields(parts[0]) {
        AcceptedExactly(PartFields(parts[0])["content"]);
      }
      PartsAcceptedExactly(parts[1..]);
    }
  }

  /** One block for each part of a known type, in order, and of that type. */
  lemma {:induction false} OneBlockEach(parts: seq<Json>)
    requires forall i | 0 <= i < |parts| :: parts[i].Obj? || parts[i].Null?
    requires NormalizeParts(parts).Ok?
    ensures BlockKinds(NormalizeParts(parts).value) == WireKinds(parts)
  {
    if parts == [] {
      return;
    }
    OneBlockEach(parts[1..]);
    KindRead(parts[0]);
    KindsAppend(NormalizePart(parts[0]).value, NormalizeParts(parts[1..]).value);
  }

  lemma KindsAppend(a: seq<Block>, b: seq<Block>)
    ensures BlockKinds(a + b) == BlockKinds(a) + BlockKinds(b)
  {
  }

  lemma {:induction false} KindRead(p: Json)
    requires (p.Obj? || p.Null?) && NormalizePart(p).Ok?
    ensures BlockKinds(NormalizePart(p).value) == if KindOf(p) in KINDS then [KindOf(p)] else []
  {
  }

  /** The list of one text part. */
  function OneText(s: string): Json {
    Arr([Obj(map["type" := Str(CONTENT_TEXT), "text" := Str(s)])])
  }

  /** A string reads exactly as the list of one text part with that text, and null as the empty string. */
  lemma StringIsOneText(s: string)
    ensures NormalizeContent(Str(s)) == NormalizeContent(OneText(s))
    ensures NormalizeContent(Null) == NormalizeContent(OneText(""))
    ensures ParseSystem(Some(Str(s))) == ParseSystem(Some(OneText(s)))
  {
    OneTextReads(s);
    OneTextReads("");
    var blocks := [TextBlock(s, map[])];
    assert blocks[1..] == [] && "" + "" + s == s;
    assert BlocksTextFrom(blocks, "") == s;
  }

  lemma OneTextReads(s: string)
    ensures NormalizeContent(OneText(s)) == Ok([TextBlock(s, map[])])
  {
    var parts := OneText(s).a;
    assert PartFields(parts[0]) == map["type" := Str(CONTENT_TEXT), "text" := Str(s)];
    assert RESERVED[0] == "type" && RESERVED[1] == "text";
    assert Without(PartFields(parts[0]), RESERVED) == map[];
    assert NormalizePart(parts[0]) == Ok([TextBlock(s, map[])]);
    assert parts[1..] == [] && NormalizeParts([]) == Ok([]);
    assert NormalizeParts(parts) == Prepend([TextBlock(s, map[])], Ok([]));
    assert [TextBlock(s, map[])] + [] == [TextBlock(s, map[])];
  }

  // ---------- The system text ----------

  /** The texts of the text parts themselves. */
  function OwnTexts(parts: seq<Json>): seq<string> {
    if parts == [] then []
    else
      (if KindOf(parts[0]) == CONTENT_TEXT then [StringField(PartFields(parts[0]), "text")] else [])
      + OwnTexts(parts[1..])
  }

  lemma {:induction false} OwnTextsRead(parts: seq<Json>)
    requires forall i | 0 <= i < |parts| :: parts[i].Obj? || parts[i].Null?
    requires NormalizeParts(parts).Ok?
    ensures TextsOf(NormalizeParts(parts).value) == OwnTexts(parts)
  {
    if parts != [] {
      OwnTextsRead(parts[1..]);
      var first := NormalizePart(parts[0]).value;
      TextsAppend(first, NormalizeParts(parts[1..]).value);
      if first != [] {
        assert first == [first[0]] && first[1..] == [];
      }
    }
  }

  /** The system text is the string, or the texts of an acceptable list joined by newlines from the first that is
      not empty on; and empty in every other case. */
  lemma SystemText(raw: Option<Json>)
    ensures ParseSystem(raw)
      == if raw.None? then ""
         else match raw.value
           case Str(s) => s
           case Arr(parts) => if Acceptable(raw.value) then Lines(SkipEmpty(OwnTexts(parts))) else ""
           case _ => ""
  {
    if raw.Some? && raw.value.Arr? {
      AcceptedExactly(raw.value);
      if Acceptable(raw.value) {
        OwnTextsRead(raw.value.a);
        BlocksTextIsLines(NormalizeContent(raw.value).value);
      }
    }
  }

  /** The message has the role and the texts of the wire message. */
  predicate Kept(m: Message, w: WireMessage) {
    w.content.Some? && m.role == w.role && DeepTexts(m.content) == WireTexts(w.content.value)
  }

  /** A whole request: accepted exactly when no message has a fault, and refused for the first; then one message for
      each, with its role and its texts. */
  lemma RequestRead(w: WireRequest, bridgeKeyID: string)
    ensures var r := NormalizeRequest(w, bridgeKeyID);
      && MessageFault(w.messages) == (if r.Ok? then None else Some(r.error))
      && (r.Ok? ==>
            && |r.value.messages| == |w.messages|
            && forall i | 0 <= i < |w.messages| :: Kept(r.value.messages[i], w.messages[i]))
  {
    MessagesReadEach(w.messages);
  }

  lemma {:induction false} MessagesReadEach(wire: seq<WireMessage>)
    ensures var r := NormalizeMessages(wire);
      && MessageFault(wire) == (if r.Ok? then None else Some(r.error))
      && (r.Ok? ==>
            && |r.value| == |wire|
            && forall i | 0 <= i < |wire| :: Kept(r.value[i], wire[i]))
  {
    if wire == [] || wire[0].content.None? {
      return;
    }
    MessagesReadEach(wire[1..]);
    AcceptedExactly(wire[0].content.value);
    if NormalizeMessages(wire).Ok? {
      ReadingKeepsTexts(wire[0].content.value);
      assert Kept(NormalizeMessages(wire).value[0], wire[0]);
    }
  }

  // ---------- From the wire to the wire ----------

  /** A source as it is sent on: its media type, and the bytes it had if any, otherwise its address. */
  function SentSource(source: Fields, bytes: Option<seq<byte>>, url: string): Fields {
    var own :=
      if bytes.Some? && bytes.value != [] then
        map["type" := Str("base64"), "data" := Str(Encode(StdEncoding, bytes.value))]
      else map["type" := Str("url"), "url" := Str(url)];
    map["media_type" := Str(StringField(source, "media_type"))] + own
  }

  function SourceBytes(source: Fields): Option<seq<byte>> {
    Decode(StdEncoding, StringField(source, "data"))
  }

  /** An image source with neither inline bytes nor an address is sent on with an empty address. */
  function SentImage(source: Fields): Fields {
    if StringField(source, "type") == "base64" then SentSource(source, SourceBytes(source), "")
    else SentSource(source, None, if StringField(source, "type") == "url" then StringField(source, "url") else "")
  }

  /** The value that is sent on for a content value that was read: the list of its parts of known types, each with its
      extra fields and the fields of its type. */
  function SentContent(raw: Json): Json
    decreases raw, 3
  {
    match raw
    case Null => OneText("")
    case Str(s) => OneText(s)
    case Arr(parts) => Arr(SentParts(parts))
    case _ => Arr([])
  }

  function SentParts(parts: seq<Json>): seq<Json>
    decreases parts, 2
  {
    if parts == [] then [] else SentPart(parts[0]) + SentParts(parts[1..])
  }

  function SentPart(part: Json): seq<Json>
    decreases part, 1
  {
    if KindOf(part) in KINDS then
      [Obj(Without(PartFields(part), RESERVED) + map["type" := Str(KindOf(part))] + SentFields(part))]
    else []
  }

  function SentFields(part: Json): Fields
    decreases part, 0
  {
    var fields, inside := PartFields(part), Inside(part);
    var source := ObjectField(fields, "source");
    if KindOf(part) == CONTENT_TEXT then map["text" := Str(StringField(fields, "text"))]
    else if KindOf(part) == CONTENT_IMAGE then map["source" := Obj(SentImage(source))]
    else if KindOf(part) == CONTENT_TOOL_USE then
      map["id" := Str(StringField(fields, "id")), "name" := Str(StringField(fields, "name")),
          "input" := Obj(ObjectField(fields, "input"))]
    else if KindOf(part) == CONTENT_TOOL_RESULT then
      map["tool_use_id" := Str(StringField(fields, "tool_use_id")),
          "content" := if inside == Null then OneText("") else SentContent(inside)]
      + (if "is_error" in fields && fields["is_error"] == Bool(true) then map["is_error" := Bool(true)] else map[])
    else map["source" := Obj(SentSource(source, SourceBytes(source), StringField(source, "url")))]
  }

  /** Reading a content value and writing it again sends on exactly that. */
  lemma {:induction false} SentOn(raw: Json)
    requires NormalizeContent(raw).Ok?
    ensures EncodeContent(NormalizeContent(raw).value) == SentContent(raw)
    decreases raw, 3
  {
    match raw
    case Null => OneTextSent("");
    case Str(s) => OneTextSent(s);
    case Arr(parts) => PartsSentOn(parts);
    case _ =>
  }

  lemma OneTextSent(s: string)
    ensures EncodeContent([TextBlock(s, map[])]) == OneText(s)
  {
    var b := TextBlock(s, map[]);
    assert [b][1..] == [] && EncodeBlocks([]) == [];
    var own: Fields := map["type" := Str(CONTENT_TEXT), "text" := Str(s)];
    assert OwnFields(b) == Some(own) && b.extras + own == own;
    assert EncodeBlock(b) == Some(own);
    assert EncodeBlocks([b]) == [Obj(own)] + [] == [Obj(own)];
  }

  lemma {:induction false} EncodeBlocksAppend(a: seq<Block>, b: seq<Block>)
    ensures EncodeBlocks(a + b) == EncodeBlocks(a) + EncodeBlocks(b)
  {
    if a == [] {
      assert a + b == b;
    } else {
      assert (a + b)[1..] == a[1..] + b;
      EncodeBlocksAppend(a[1..], b);
      var first := EncodeBlock(a[0]);
      Seqs.Assoc(if first.Some? then [Obj(first.value)] else [], EncodeBlocks(a[1..]), EncodeBlocks(b));
    }
  }

  lemma {:induction false} PartsSentOn(parts: seq<Json>)
    requires forall i | 0 <= i < |parts| :: parts[i].Obj? || parts[i].Null?
    requires NormalizeParts(parts).Ok?
    ensures EncodeBlocks(NormalizeParts(parts).value) == SentParts(parts)
    decreases parts, 2
  {
    if parts != [] {
      PartSentOn(parts[0]);
      PartsSentOn(parts[1..]);
      EncodeBlocksAppend(NormalizePart(parts[0]).value, NormalizeParts(parts[1..]).value);
    }
  }

  lemma {:induction false} PartSentOn(p: Json)
    requires (p.Obj? || p.Null?) && NormalizePart(p).Ok?
    ensures EncodeBlocks(NormalizePart(p).value) == SentPart(p)
    decreases p, 1
  {
    var blocks := NormalizePart(p).value;
    assert EncodeBlocks([]) == [];
    if KindOf(p) !in KINDS {
      return;
    }
    assert blocks == [blocks[0]] && blocks[1..] == [];
    if KindOf(p) == CONTENT_TOOL_RESULT {
      InsideSentOn(p);
      ToolResultSentOn(p);
    } else {
      OtherSentOn(p);
    }
  }

  lemma {:induction false} InsideSentOn(p: Json)
    requires (p.Obj? || p.Null?) && NormalizePart(p).Ok? && KindOf(p) == CONTENT_TOOL_RESULT
    ensures EncodeContent(NormalizePart(p).value[0].toolResult.value.content)
      == if Inside(p) == Null then OneText("") else SentContent(Inside(p))
    decreases p, 0
  {
    OneTextSent("");
    if "content" in PartFields(p) {
      SentOn(PartFields(p)["content"]);
    }
  }

  lemma Overlaid(a: Fields, b: Fields, c: Fields)
    ensures (a + b) + c == a + (b + c)
  {
  }

  /** A block's own fields come after its type. */
  lemma FieldsSent(b: Block, p: Json, own: Fields)
    requires OwnFields(b) == Some(own) && own == map["type" := Str(KindOf(p))] + SentFields(p)
    ensures EncodeBlock(b) == Some(b.extras + map["type" := Str(KindOf(p))] + SentFields(p))
  {
    Overlaid(b.extras, map["type" := Str(KindOf(p))], SentFields(p));
  }

  lemma ToolResultOwn(typ: Json, id: Json, content: Json, error: Fields)
    ensures map["type" := typ, "tool_use_id" := id, "content" := content] + error
         == map["type" := typ] + (map["tool_use_id" := id, "content" := content] + error)
  {
  }

  lemma DocumentOver(extras: Fields, typ: Json, source: Json, name: string)
    requires name != "" ==> "title" in extras && extras["title"] == Str(name)
    ensures extras + (map["type" := typ, "source" := source] + if name != "" then map["title" := Str(name)] else map[])
         == extras + map["type" := typ] + map["source" := source]
  {
  }

  lemma {:induction false} ToolResultSentOn(p: Json)
    requires (p.Obj? || p.Null?) && NormalizePart(p).Ok? && KindOf(p) == CONTENT_TOOL_RESULT
    requires EncodeContent(NormalizePart(p).value[0].toolResult.value.content)
      == if Inside(p) == Null then OneText("") else SentContent(Inside(p))
    ensures var b := NormalizePart(p).value[0];
      EncodeBlock(b) == Some(b.extras + map["type" := Str(KindOf(p))] + SentFields(p))
      && b.extras == Without(PartFields(p), RESERVED)
  {
    var b := NormalizePart(p).value[0];
    var result := b.toolResult.value;
    ToolResultOwn(Str(CONTENT_TOOL_RESULT), Str(result.toolUseID), EncodeContent(result.content),
                  if result.isError then map["is_error" := Bool(true)] else map[]);
    FieldsSent(b, p, OwnFields(b).value);
  }

  lemma {:induction false} OtherSentOn(p: Json)
    requires (p.Obj? || p.Null?) && NormalizePart(p).Ok? && KindOf(p) in KINDS && KindOf(p) != CONTENT_TOOL_RESULT
    ensures var b := NormalizePart(p).value[0];
      EncodeBlock(b) == Some(b.extras + map["type" := Str(KindOf(p))] + SentFields(p))
      && b.extras == Without(PartFields(p), RESERVED)
  {
    if KindOf(p) == CONTENT_TEXT {
      TextSentOn(p);
    } else if KindOf(p) == CONTENT_TOOL_USE {
      ToolUseSentOn(p);
    } else if KindOf(p) == CONTENT_IMAGE {
      ImageSentOn(p);
    } else {
      DocumentSentOn(p);
    }
  }

  lemma {:induction false} TextSentOn(p: Json)
    requires (p.Obj? || p.Null?) && NormalizePart(p).Ok? && KindOf(p) == CONTENT_TEXT
    ensures var b := NormalizePart(p).value[0];
      EncodeBlock(b) == Some(b.extras + map["type" := Str(KindOf(p))] + SentFields(p))
      && b.extras == Without(PartFields(p), RESERVED)
  {
    var b := NormalizePart(p).value[0];
    FieldsSent(b, p, OwnFields(b).value);
  }

  lemma {:induction false} ToolUseSentOn(p: Json)
    requires (p.Obj? || p.Null?) && NormalizePart(p).Ok? && KindOf(p) == CONTENT_TOOL_USE
    ensures var b := NormalizePart(p).value[0];
      EncodeBlock(b) == Some(b.extras + map["type" := Str(KindOf(p))] + SentFields(p))
      && b.extras == Without(PartFields(p), RESERVED)
  {
    var b := NormalizePart(p).value[0];
    FieldsSent(b, p, OwnFields(b).value);
  }

  lemma {:induction false} ImageSentOn(p: Json)
    requires (p.Obj? || p.Null?) && NormalizePart(p).Ok? && KindOf(p) == CONTENT_IMAGE
    ensures var b := NormalizePart(p).value[0];
      EncodeBlock(b) == Some(b.extras + map["type" := Str(KindOf(p))] + SentFields(p))
      && b.extras == Without(PartFields(p), RESERVED)
  {
    var b := NormalizePart(p).value[0];
    ImageSent(p);
    FieldsSent(b, p, OwnFields(b).value);
  }

  lemma {:induction false} ImageSent(p: Json)
    requires (p.Obj? || p.Null?) && NormalizePart(p).Ok? && KindOf(p) == CONTENT_IMAGE
    ensures var b := NormalizePart(p).value[0];
      EncodeSource(b.mediaType, b.imageB64, b.imageURL) == SentImage(ObjectField(PartFields(p), "source"))
  {
  }

  /** A document's title is one of its extra fields, so it is sent on with them. */
  lemma {:induction false} DocumentSentOn(p: Json)
    requires (p.Obj? || p.Null?) && NormalizePart(p).Ok? && KindOf(p) == CONTENT_DOCUMENT
    ensures var b := NormalizePart(p).value[0];
      EncodeBlock(b) == Some(b.extras + map["type" := Str(KindOf(p))] + SentFields(p))
      && b.extras == Without(PartFields(p), RESERVED)
  {
    var b := NormalizePart(p).value[0];
    var doc := b.document.value;
    assert "title" !in RESERVED;
    assert doc.name != "" ==> "title" in b.extras && b.extras["title"] == Str(doc.name);
    DocumentSourceSent(p);
    DocumentOver(b.extras, Str(CONTENT_DOCUMENT), Obj(EncodeSource(doc.mediaType, doc.data, doc.url)), doc.name);
  }

  lemma {:induction false} DocumentSourceSent(p: Json)
    requires (p.Obj? || p.Null?) && NormalizePart(p).Ok? && KindOf(p) == CONTENT_DOCUMENT
    ensures var doc, source := NormalizePart(p).value[0].document.value, ObjectField(PartFields(p), "source");
      EncodeSource(doc.mediaType, doc.data, doc.url)
      == SentSource(source, SourceBytes(source), StringField(source, "url"))
  {
    NoData();
  }

  lemma NoData()
    ensures Decode(StdEncoding, "") == Some([])
  {
    assert DropNewlines("") == "";
  }

  /** A server as it is sent on: its type, its address and name if it has any, and its other fields. */
  function SentServer(server: Fields): Fields {
    map["type" := Str(StringField(server, "type"))]
    + (if StringField(server, "url") == "" then map[] else map["url" := Str(StringField(server, "url"))])
    + (if StringField(server, "name") == "" then map[] else map["name" := Str(StringField(server, "name"))])
    + Without(server, SERVER_RESERVED)
  }

  /** An accepted request is sent on with its own fields, its system text as a string if there is any, its servers, and
      under each message's role what its content is sent on as. */
  lemma RequestSentOn(w: WireRequest, bridgeKeyID: string)
    requires NormalizeRequest(w, bridgeKeyID).Ok?
    ensures var out, text := DenormalizeRequest(NormalizeRequest(w, bridgeKeyID).value), ParseSystem(w.system);
      && out == WireRequest(w.model, out.messages, if text == "" then None else Some(Str(text)), w.maxTokens,
                            w.temperature, w.topP, w.stopSequences, w.stream, w.tools, out.mcpServers, w.metadata,
                            w.toolChoice)
      && |out.mcpServers| == |w.mcpServers|
      && (forall i | 0 <= i < |w.mcpServers| :: out.mcpServers[i] == SentServer(w.mcpServers[i]))
      && |out.messages| == |w.messages|
      && forall i | 0 <= i < |w.messages| ::
           w.messages[i].content.Some?
           && out.messages[i] == WireMessage(w.messages[i].role, Some(SentContent(w.messages[i].content.value)))
  {
    MessagesSentOn(w.messages);
  }

  lemma {:induction false} MessagesSentOn(wire: seq<WireMessage>)
    requires NormalizeMessages(wire).Ok?
    ensures var messages := NormalizeMessages(wire).value;
      && |messages| == |wire|
      && forall i | 0 <= i < |wire| ::
           wire[i].content.Some? && messages[i].role == wire[i].role
           && EncodeContent(messages[i].content) == SentContent(wire[i].content.value)
  {
    if wire != [] {
      SentOn(wire[0].content.value);
      MessagesSentOn(wire[1..]);
    }
  }

  /** A block is left out exactly when its type names a part it does not have. */
  lemma LeftOutExactly(b: Block)
    ensures EncodeBlock(b).None? <==>
      || (b.typ == CONTENT_TOOL_USE && b.toolUse.None?)
      || (b.typ == CONTENT_TOOL_RESULT && b.toolResult.None?)
      || (b.typ == CONTENT_DOCUMENT && b.document.None?)
  {
  }
}
