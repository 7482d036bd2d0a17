/** What reading an OpenAI request makes of the wire, said about the wire alone: which requests are accepted, the
    system text, and the texts, images and calls of every message. */
module OpenAIReading {
  import opened Wrappers
  import opened Json
  import opened IR
  import opened Seqs
  import opened OpenAICodec

  // ---------- On the wire alone ----------

  predicate SpeaksForSystem(w: WireMessage) {
    w.role == "system" || w.role == "developer"
  }

  /** The texts of a content value: a string that is not empty, or the texts of the text parts of a list. */
  function WireTexts(content: Option<Json>): seq<string> {
    if content.None? then []
    else match content.value
      case Str(s) => if s == "" then [] else [s]
      case Arr(parts) => FlatMap(parts, PartText)
      case _ => []
  }

  function PartText(part: Json): seq<string> {
    if KindOf(part) in {"text", "input_text"} then [StringField(PartFields(part), "text")] else []
  }

  /** The image addresses of a content value, in either spelling. */
  function WireImages(content: Option<Json>): seq<string> {
    if content.Some? && content.value.Arr? then FlatMap(content.value.a, PartImage) else []
  }

  function PartImage(part: Json): seq<string> {
    var fields := PartFields(part);
    if KindOf(part) == "image_url" then [StringField(ObjectField(fields, "image_url"), "url")]
    else if KindOf(part) == "input_image" then [StringField(fields, "image_url")]
    else []
  }

  predicate Readable(content: Option<Json>) {
    content.None? || content.value.Null? || content.value.Str? || IsPartList(content.value)
  }

  /** Argument text is empty, or the text of an object or of null. */
  predicate Parses(call: WireToolCall) {
    call.arguments.NoText? || (call.arguments.JsonText? && (call.arguments.v.Obj? || call.arguments.v.Null?))
  }

  function Arguments(call: WireToolCall): Fields {
    if call.arguments.JsonText? && call.arguments.v.Obj? then call.arguments.v.o else map[]
  }

  function Uses(calls: seq<WireToolCall>): (r: seq<ToolUse>)
    ensures |r| == |calls|
  {
    seq(|calls|, i requires 0 <= i < |calls| => ToolUse(calls[i].id, calls[i].name, Arguments(calls[i])))
  }

  predicate Acceptable(w: WireMessage) {
    Readable(w.content) && (!SpeaksForSystem(w) ==> forall c | c in w.toolCalls :: Parses(c))
  }

  /** The texts that are not empty of the messages that speak for the system, in order. */
  function SystemTexts(wire: seq<WireMessage>): seq<string> {
    if wire == [] then []
    else
      var text := Lines(SkipEmpty(WireTexts(wire[0].content)));
      (if SpeaksForSystem(wire[0]) && text != "" then [text] else []) + SystemTexts(wire[1..])
  }

  /** The other messages. */
  function Talk(wire: seq<WireMessage>): seq<WireMessage> {
    if wire == [] then []
    else (if SpeaksForSystem(wire[0]) then [] else [wire[0]]) + Talk(wire[1..])
  }

  // ---------- On what is read ----------

  function UsesOf(blocks: seq<Block>): seq<ToolUse> {
    FlatMap(blocks, UsePiece)
  }

  function UsePiece(b: Block): seq<ToolUse> {
    if b.toolUse.Some? then [b.toolUse.value] else []
  }

  /** The message says what the wire message said: its role, and under a tool result for a tool message, its texts,
      images and calls. */
  predicate Says(m: Message, w: WireMessage) {
    && m.role == w.role
    && (w.role == "tool" ==>
          && |m.content| == 1 && m.content[0].toolResult.Some?
          && m.content[0].toolResult.value.toolUseID == w.toolCallID)
    && var blocks := if w.role == "tool" then m.content[0].toolResult.value.content else m.content;
       && TextsOf(blocks) == WireTexts(w.content)
       && ImagesOf(blocks) == WireImages(w.content)
       && UsesOf(blocks) == Uses(w.toolCalls)
       && |blocks| == |WireTexts(w.content)| + |WireImages(w.content)| + |w.toolCalls|
  }

  // ---------- Content and calls ----------

  lemma TextsOfOne(b: Block)
    ensures TextsOf([b]) == if b.typ == CONTENT_TEXT then [b.text] else []
  {
    assert [b][1..] == [];
  }

  lemma {:induction false} PartsRead(parts: seq<Json>)
    ensures var blocks := FlatMap(parts, NormalizePart);
      && TextsOf(blocks) == FlatMap(parts, PartText) && ImagesOf(blocks) == FlatMap(parts, PartImage)
      && UsesOf(blocks) == [] && |blocks| == |FlatMap(parts, PartText)| + |FlatMap(parts, PartImage)|
  {
    if parts != [] {
      var first, later := NormalizePart(parts[0]), FlatMap(parts[1..], NormalizePart);
      PartsRead(parts[1..]);
      PartRead(parts[0]);
      TextsAppend(first, later);
      FlatMapAppend(first, later, ImagePiece);
      FlatMapAppend(first, later, UsePiece);
    }
  }

  lemma PartRead(part: Json)
    ensures var blocks := NormalizePart(part);
      && TextsOf(blocks) == PartText(part) && ImagesOf(blocks) == PartImage(part) && UsesOf(blocks) == []
      && |blocks| == |PartText(part)| + |PartImage(part)|
  {
    var blocks := NormalizePart(part);
    if blocks != [] {
      assert blocks == [blocks[0]];
      TextsOfOne(blocks[0]);
      FlatMapOne(blocks[0], ImagePiece);
      FlatMapOne(blocks[0], UsePiece);
    }
  }

  lemma ContentRead(content: Option<Json>)
    ensures NormalizeContent(content).Ok? <==> Readable(content)
    ensures NormalizeContent(content).Ok? ==>
      var blocks := NormalizeContent(content).value;
      && TextsOf(blocks) == WireTexts(content) && ImagesOf(blocks) == WireImages(content) && UsesOf(blocks) == []
      && |blocks| == |WireTexts(content)| + |WireImages(content)|
  {
    if content.Some? && content.value.Str? {
      var b := TextBlock(content.value.s, map[]);
      TextsOfOne(b);
      FlatMapOne(b, ImagePiece);
      FlatMapOne(b, UsePiece);
    } else if content.Some? && IsPartList(content.value) {
      PartsRead(content.value.a);
    }
  }

  lemma {:induction false} CallsAccepted(calls: seq<WireToolCall>)
    ensures NormalizeCalls(calls).Ok? <==> forall c | c in calls :: Parses(c)
  {
    if calls != [] {
      CallsAccepted(calls[1..]);
      assert calls[0] in calls && forall c | c in calls :: c == calls[0] || c in calls[1..];
      assert forall c | c in calls[1..] :: c in calls;
      assert ParseArguments(calls[0].arguments).Some? <==> Parses(calls[0]);
    }
  }

  /** The blocks are these calls. */
  predicate Gives(blocks: seq<Block>, calls: seq<WireToolCall>) {
    |blocks| == |calls| && TextsOf(blocks) == [] && ImagesOf(blocks) == [] && UsesOf(blocks) == Uses(calls)
  }

  lemma {:induction false} CallsRead(calls: seq<WireToolCall>)
    requires NormalizeCalls(calls).Ok?
    ensures Gives(NormalizeCalls(calls).value, calls)
  {
    if calls == [] {
      return;
    }
    CallsRead(calls[1..]);
    FirstCallGives(calls[0], calls[1..], NormalizeCalls(calls[1..]).value);
    assert calls == [calls[0]] + calls[1..];
  }

  lemma FirstCallGives(call: WireToolCall, calls: seq<WireToolCall>, later: seq<Block>)
    requires Gives(later, calls)
    ensures Gives([CallBlock(call.id, call.name, Arguments(call))] + later, [call] + calls)
  {
    FirstCall(CallBlock(call.id, call.name, Arguments(call)), later);
    assert Uses([call] + calls) == [ToolUse(call.id, call.name, Arguments(call))] + Uses(calls);
  }

  lemma FirstCall(b: Block, later: seq<Block>)
    requires b.typ == CONTENT_TOOL_USE && b.toolUse.Some?
    ensures var blocks := [b] + later;
      && TextsOf(blocks) == TextsOf(later) && ImagesOf(blocks) == ImagesOf(later)
      && UsesOf(blocks) == [b.toolUse.value] + UsesOf(later)
  {
    assert ([b] + later)[1..] == later;
  }

  // ---------- Messages ----------

  lemma SystemMessageRead(w: WireMessage, acc: Reading)
    requires SpeaksForSystem(w)
    ensures var r := NormalizeMessage(w, acc);
      && (r.Ok? <==> Acceptable(w))
      && (r.Ok? ==> r.value.messages == acc.messages
                    && r.value.system == JoinSystem(acc.system, Lines(SkipEmpty(WireTexts(w.content)))))
  {
    ContentRead(w.content);
    if Readable(w.content) {
      BlocksTextIsLines(NormalizeContent(w.content).value);
    }
  }

  lemma TalkMessageRead(w: WireMessage, acc: Reading)
    requires !SpeaksForSystem(w)
    ensures var r := NormalizeMessage(w, acc);
      && (r.Ok? <==> Acceptable(w))
      && (r.Ok? ==> r.value.system == acc.system && |r.value.messages| == |acc.messages| + 1
                    && r.value.messages[..|acc.messages|] == acc.messages
                    && Says(r.value.messages[|acc.messages|], w))
  {
    ContentRead(w.content);
    CallsAccepted(w.toolCalls);
    if Acceptable(w) {
      CallsRead(w.toolCalls);
      var content, calls := NormalizeContent(w.content).value, NormalizeCalls(w.toolCalls).value;
      TextsAppend(content, calls);
      FlatMapAppend(content, calls, ImagePiece);
      FlatMapAppend(content, calls, UsePiece);
    }
  }

  /** The messages after the first n, one for each wire message that does not speak for the system. */
  predicate AllSay(messages: seq<Message>, n: nat, talk: seq<WireMessage>) {
    Related(messages, n, talk, Saying())
  }

  function Saying(): (Message, WireMessage) -> bool {
    (m: Message, w: WireMessage) => Says(m, w)
  }

  /** Each item of t is related to the item of s at its place, n places on. */
  predicate Related<S, T>(s: seq<S>, n: nat, t: seq<T>, rel: (S, T) -> bool)
    decreases |t|
  {
    if t == [] then n == |s| else n < |s| && rel(s[n], t[0]) && Related(s, n + 1, t[1..], rel)
  }

  lemma {:induction false} RelatedEach<S, T>(s: seq<S>, n: nat, t: seq<T>, rel: (S, T) -> bool)
    requires Related(s, n, t, rel)
    ensures |s| == n + |t| && forall i | 0 <= i < |t| :: rel(s[n + i], t[i])
    decreases |t|
  {
    if t != [] {
      RelatedEach(s, n + 1, t[1..], rel);
      forall i | 0 < i < |t| ensures rel(s[n + i], t[i]) {
        assert rel(s[n + 1 + (i - 1)], t[1..][i - 1]);
      }
    }
  }

  function Joined(system: string, texts: seq<string>): string {
    Lines((if system == "" then [] else [system]) + texts)
  }

  lemma JoinedOn(system: string, text: string, later: seq<string>)
    ensures Joined(JoinSystem(system, text), later)
         == Joined(system, (if text == "" then [] else [text]) + later)
  {
    if text == "" {
      assert [] + later == later;
    } else if system == "" {
      assert [] + ([text] + later) == [text] + later;
    } else {
      JoinedMore(system, text, later);
    }
  }

  lemma JoinedMore(system: string, text: string, later: seq<string>)
    ensures Lines([system + "\n" + text] + later) == Lines([system] + ([text] + later))
  {
    LinesMerge(system, text, later);
    assert [system] + ([text] + later) == [system, text] + later;
  }

  /** What reading these messages gives, after what was read before them. */
  predicate ReadAs(r: Result<Reading, CodecError>, wire: seq<WireMessage>, acc: Reading) {
    && (r.Ok? <==> forall w | w in wire :: Acceptable(w))
    && (r.Ok? ==> r.value.system == Joined(acc.system, SystemTexts(wire))
                  && acc.messages <= r.value.messages && AllSay(r.value.messages, |acc.messages|, Talk(wire)))
  }

  lemma SystemFirst(r: Result<Reading, CodecError>, w: WireMessage, later: seq<WireMessage>, acc: Reading,
                    next: Reading)
    requires SpeaksForSystem(w) && Acceptable(w) && ReadAs(r, later, next) && next.messages == acc.messages
    requires next.system == JoinSystem(acc.system, Lines(SkipEmpty(WireTexts(w.content))))
    ensures ReadAs(r, [w] + later, acc)
  {
    assert ([w] + later)[1..] == later;
    JoinedOn(acc.system, Lines(SkipEmpty(WireTexts(w.content))), SystemTexts(later));
    assert [] + Talk(later) == Talk(later);
  }

  lemma TalkFirst(r: Result<Reading, CodecError>, w: WireMessage, later: seq<WireMessage>, acc: Reading, m: Message)
    requires !SpeaksForSystem(w) && Acceptable(w) && Says(m, w)
    requires ReadAs(r, later, acc.(messages := acc.messages + [m]))
    ensures ReadAs(r, [w] + later, acc)
  {
    assert ([w] + later)[1..] == later;
    assert [] + SystemTexts(later) == SystemTexts(later);
    var talk := Talk([w] + later);
    assert talk == [w] + Talk(later);
    if r.Ok? {
      SaysFirst(r.value.messages, acc.messages, m, w, Talk(later));
    }
  }

  lemma SaysFirst(messages: seq<Message>, before: seq<Message>, m: Message, w: WireMessage, talk: seq<WireMessage>)
    requires before + [m] <= messages && Says(m, w) && AllSay(messages, |before| + 1, talk)
    ensures before <= messages && AllSay(messages, |before|, [w] + talk)
  {
    assert messages[|before|] == (before + [m])[|before|] == m;
    assert ([w] + talk)[1..] == talk && before <= before + [m];
  }

  lemma {:induction false} MessagesRead(wire: seq<WireMessage>, acc: Reading)
    ensures ReadAs(NormalizeMessages(wire, acc), wire, acc)
  {
    if wire == [] {
      NothingRead(acc);
      return;
    }
    var w, later := wire[0], wire[1..];
    assert wire == [w] + later;
    FirstAccepted(w, acc);
    if !Acceptable(w) {
      return;
    }
    var next := NormalizeMessage(w, acc).value;
    MessagesRead(later, next);
    if SpeaksForSystem(w) {
      SystemMessageRead(w, acc);
      SystemFirst(NormalizeMessages(wire, acc), w, later, acc, next);
    } else {
      TalkMessageRead(w, acc);
      var m := next.messages[|acc.messages|];
      assert next == acc.(messages := acc.messages + [m]);
      TalkFirst(NormalizeMessages(wire, acc), w, later, acc, m);
    }
  }

  lemma NothingRead(acc: Reading)
    ensures ReadAs(Ok(acc), [], acc)
  {
    var own := if acc.system == "" then [] else [acc.system];
    assert own + [] == own;
  }

  lemma FirstAccepted(w: WireMessage, acc: Reading)
    ensures NormalizeMessage(w, acc).Ok? <==> Acceptable(w)
  {
    if SpeaksForSystem(w) {
      SystemMessageRead(w, acc);
    } else {
      TalkMessageRead(w, acc);
    }
  }

  /** Exactly the requests with readable contents and call arguments are accepted. The system text is the texts that
      are not empty of the system and developer messages, wherever they stand, joined by newlines; and each other
      message, in order, gives one that says the same. */
  lemma RequestRead(w: WireRequest, bridgeKeyID: string)
    ensures var r := NormalizeRequest(w, bridgeKeyID);
      && (r.Ok? <==> forall m | m in w.messages :: Acceptable(m))
      && (r.Ok? ==>
            && r.value.system == Lines(SystemTexts(w.messages))
            && |r.value.messages| == |Talk(w.messages)|
            && forall i | 0 <= i < |Talk(w.messages)| :: Says(r.value.messages[i], Talk(w.messages)[i]))
  {
    MessagesRead(w.messages, Reading("", []));
    if NormalizeRequest(w, bridgeKeyID).Ok? {
      var messages, talk := NormalizeRequest(w, bridgeKeyID).value.messages, Talk(w.messages);
      RelatedEach(messages, 0, talk, Saying());
      forall i | 0 <= i < |talk| ensures Says(messages[i], talk[i]) {
        assert Saying()(messages[0 + i], talk[i]);
      }
    }
    assert [] + SystemTexts(w.messages) == SystemTexts(w.messages);
  }

  // ---------- The other fields ----------

  /** The tools of no type or of type function. */
  function Functions(tools: seq<WireTool>): seq<ToolDef> {
    if tools == [] then []
    else (if tools[0].typ in {"", "function"} then [tools[0].function_] else []) + Functions(tools[1..])
  }

  /** The strings of a list, in order. */
  function Strings(items: seq<Json>): seq<string> {
    if items == [] then []
    else (if items[0].Str? then [items[0].s] else []) + Strings(items[1..])
  }

  lemma {:induction false} FunctionsRead(tools: seq<WireTool>)
    ensures FlatMap(tools, FunctionTool) == Functions(tools)
  {
    if tools != [] {
      FunctionsRead(tools[1..]);
    }
  }

  lemma {:induction false} StringsRead(items: seq<Json>)
    ensures FlatMap(items, StringItem) == Strings(items)
  {
    if items != [] {
      StringsRead(items[1..]);
    }
  }

  /** Tools of other types are dropped, a stop is one string or the strings of a list, and a user that is not empty
      is metadata, over any the metadata named. */
  lemma FieldsRead(w: WireRequest, bridgeKeyID: string)
    requires NormalizeRequest(w, bridgeKeyID).Ok?
    ensures var req := NormalizeRequest(w, bridgeKeyID).value;
      && req.tools == Functions(w.tools)
      && (w.stop.None? ==> req.stopSequences == [])
      && (w.stop.Some? && w.stop.value.Str? ==> Lines(req.stopSequences) == w.stop.value.s && "" !in req.stopSequences)
      && (w.stop.Some? && w.stop.value.Arr? ==> req.stopSequences == Strings(w.stop.value.a))
      && (w.user != "" ==> "user" in req.metadata && req.metadata["user"] == w.user)
      && (forall k | k in w.metadata && (k != "user" || w.user == "") :: k in req.metadata)
      && (forall k | k in req.metadata && (k != "user" || w.user == "") ::
            k in w.metadata && req.metadata[k] == w.metadata[k])
      && (w.toolChoice.Some? ==> TOOL_CHOICE in req.extras && req.extras[TOOL_CHOICE] == w.toolChoice.value)
      && (w.responseFormat.Some? ==>
            RESPONSE_FORMAT in req.extras && req.extras[RESPONSE_FORMAT] == w.responseFormat.value)
  {
    FunctionsRead(w.tools);
    if w.stop.Some? && w.stop.value.Arr? {
      StringsRead(w.stop.value.a);
    }
  }

  // ---------- What is written ----------

  /** The blocks a message is written from: those under the first tool result of a tool message, or its own. */
  function WrittenBlocks(m: Message): seq<Block> {
    if m.role == "tool" && FirstResult(m.content).Some? then FirstResult(m.content).value.content else m.content
  }

  /** Any message is written under its role, without a name, with the texts and images of its blocks; only one that is
      not written as a tool result carries its calls. */
  lemma MessageWritten(m: Message)
    ensures var w, blocks := EncodeMessage(m), WrittenBlocks(m);
      var asResult := m.role == "tool" && FirstResult(m.content).Some?;
      && w.role == m.role && w.name == ""
      && w.toolCallID == (if asResult then FirstResult(m.content).value.toolUseID else "")
      && WireImages(w.content) == ImagesOf(blocks)
      && (TextOnly(blocks) ==> w.content == Some(Str(TextOf(blocks))))
      && (!TextOnly(blocks) ==> WireTexts(w.content) == TextsOf(blocks))
      && Uses(w.toolCalls) == (if asResult then [] else UsesOf(m.content))
      && forall c | c in w.toolCalls :: c.typ == "function" && c.arguments.JsonText? && c.arguments.v.Obj?
  {
    ContentWritten(WrittenBlocks(m));
    CallsWritten(m.content);
  }

  lemma ContentWritten(blocks: seq<Block>)
    ensures WireImages(Some(EncodeContent(blocks))) == ImagesOf(blocks)
    ensures !TextOnly(blocks) ==> WireTexts(Some(EncodeContent(blocks))) == TextsOf(blocks)
  {
    if TextOnly(blocks) {
      FlatMapNone(blocks, ImagePiece);
    } else {
      PartsWritten(blocks);
    }
  }

  lemma {:induction false} PartsWritten(blocks: seq<Block>)
    ensures FlatMap(FlatMap(blocks, EncodePart), PartImage) == ImagesOf(blocks)
    ensures FlatMap(FlatMap(blocks, EncodePart), PartText) == TextsOf(blocks)
  {
    if blocks != [] {
      var first, later := EncodePart(blocks[0]), FlatMap(blocks[1..], EncodePart);
      PartsWritten(blocks[1..]);
      PartWritten(blocks[0]);
      FlatMapAppend(first, later, PartImage);
      FlatMapAppend(first, later, PartText);
    }
  }

  lemma PartWritten(b: Block)
    ensures FlatMap(EncodePart(b), PartImage) == ImagePiece(b)
    ensures FlatMap(EncodePart(b), PartText) == if b.typ == CONTENT_TEXT then [b.text] else []
  {
    if EncodePart(b) != [] {
      var p := EncodePart(b)[0];
      assert EncodePart(b) == [p];
      FlatMapOne(p, PartImage);
      FlatMapOne(p, PartText);
    }
  }

  lemma {:induction false} CallsWritten(blocks: seq<Block>)
    ensures var calls := FlatMap(blocks, EncodeCall);
      && Uses(calls) == UsesOf(blocks)
      && forall c | c in calls :: c.typ == "function" && c.arguments.JsonText? && c.arguments.v.Obj?
  {
    if blocks != [] {
      CallsWritten(blocks[1..]);
      var calls, later := FlatMap(blocks, EncodeCall), FlatMap(blocks[1..], EncodeCall);
      if blocks[0].toolUse.Some? {
        assert Uses(calls) == [blocks[0].toolUse.value] + Uses(later);
      } else {
        assert calls == later;
      }
    }
  }

  /** The message a system text is written as, if there is any. */
  function Front(req: Request): seq<WireMessage> {
    if req.system != "" then [WireMessage("system", Some(Str(req.system)), "", "", [])] else []
  }

  /** A request is written with its system text as one message in front, if there is any, then every message; and with
      every tool. */
  lemma RequestWritten(req: Request)
    ensures var w := DenormalizeRequest(req);
      && w.messages == Front(req) + OwnMessages(req)
      && SystemTexts(Front(req)) == (if req.system == "" then [] else [req.system])
      && Functions(w.tools) == req.tools && (forall t | t in w.tools :: t.typ == "function")
  {
    OwnWritten(req);
    FrontSays(req);
    ToolsReadBack(req.tools, DenormalizeRequest(req).tools);
    FunctionsRead(DenormalizeRequest(req).tools);
  }

  lemma OwnWritten(req: Request)
    ensures DenormalizeRequest(req).messages == Front(req) + OwnMessages(req)
  {
    var own := seq(|req.messages|, i requires 0 <= i < |req.messages| => EncodeMessage(req.messages[i]));
    assert DenormalizeRequest(req).messages == Front(req) + own;
    assert own == OwnMessages(req);
  }

  lemma FrontSays(req: Request)
    ensures SystemTexts(Front(req)) == if req.system == "" then [] else [req.system]
  {
    if req.system != "" {
      assert Front(req)[1..] == [] && SystemTexts([]) == [];
      assert SkipEmpty([req.system]) == [req.system] && Lines([req.system]) == req.system;
    }
  }

  /** The user comes from the metadata, the choice and the format from the extras, and every other field as it is. */
  lemma FieldsWritten(req: Request)
    ensures var w := DenormalizeRequest(req);
      && w.user == (if "user" in req.metadata then req.metadata["user"] else "")
      && w.toolChoice == (if "tool_choice" in req.extras then Some(req.extras["tool_choice"]) else None)
      && w.responseFormat == (if "response_format" in req.extras then Some(req.extras["response_format"]) else None)
      && w == WireRequest(req.modelAlias, w.messages, req.temperature, req.topP, req.maxTokens,
                          EncodeStop(req.stopSequences), req.stream, w.tools, w.toolChoice, w.responseFormat, w.user,
                          req.metadata)
  {
  }

  /** No stop is left out, one is a string, several are a list of strings in order. */
  lemma StopWritten(stops: seq<string>)
    ensures stops == [] ==> EncodeStop(stops) == None
    ensures |stops| == 1 ==> EncodeStop(stops) == Some(Str(stops[0]))
    ensures |stops| > 1 ==> EncodeStop(stops).Some? && EncodeStop(stops).value.Arr?
                            && |EncodeStop(stops).value.a| == |stops| && Strings(EncodeStop(stops).value.a) == stops
  {
    if |stops| > 1 {
      StringsReadBack(stops, EncodeStop(stops).value.a);
      StringsRead(EncodeStop(stops).value.a);
    }
  }
}
