/** Across the two formats: what internal/ir/cross_test.go checks on 24 payloads, for every request. */
module CrossFormat {
  import opened Wrappers
  import opened Json
  import opened IR
  import opened Seqs
  import A = AnthropicCodec
  import O = OpenAICodec

  /** The request with the one extra the Anthropic form cannot carry left out. */
  function Comparable(req: Request): Request {
    req.(extras := map k | k in req.extras && k != O.RESPONSE_FORMAT :: req.extras[k])
  }

  lemma HeldIsReadable(b: Block)
    requires O.Plain(b) || O.Call(b)
    ensures A.Readable(b) && A.Carried(b) == b
  {
  }

  lemma {:induction false} HeldIsCarried(blocks: seq<Block>)
    requires forall b | b in blocks :: O.Plain(b) || O.Call(b)
    ensures A.AllReadable(blocks) && A.CarriedAll(blocks) == blocks
  {
    forall b | b in blocks ensures A.Readable(b) && A.Carried(b) == b {
      HeldIsReadable(b);
    }
    A.CarriedWhole(blocks);
  }

  lemma HeldMessageIsCarried(m: Message)
    requires O.HeldMessage(m)
    ensures A.AllReadable(m.content) && A.CarriedMessage(m) == m
  {
    if m.role == ROLE_TOOL {
      var result := m.content[0].toolResult.value;
      HeldIsCarried(result.content);
      A.CarriedWhole(m.content);
      assert A.Carried(m.content[0]) == m.content[0];
    } else {
      HeldIsCarried(m.content);
    }
  }

  /** An OpenAI request read back from its Anthropic form is the same but for response_format. */
  lemma ThroughAnthropic(w: O.WireRequest, bridgeKeyID: string)
    requires O.NormalizeRequest(w, bridgeKeyID).Ok?
    ensures var req := O.NormalizeRequest(w, bridgeKeyID).value;
            A.NormalizeRequest(A.DenormalizeRequest(req), bridgeKeyID) == Ok(Comparable(req))
  {
    var req := O.NormalizeRequest(w, bridgeKeyID).value;
    O.AcceptedIsHeld(w, bridgeKeyID);
    HeldRequestIsCarried(req);
    A.RequestReadsBack(req);
    assert A.CarriedRequest(req).extras == Comparable(req).extras;
  }

  lemma HeldRequestIsCarried(req: Request)
    requires forall m | m in req.messages :: O.HeldMessage(m)
    ensures (forall m | m in req.messages :: A.AllReadable(m.content)) && A.CarriedRequest(req).messages == req.messages
  {
    forall m | m in req.messages ensures A.AllReadable(m.content) && A.CarriedMessage(m) == m {
      HeldMessageIsCarried(m);
    }
    forall i | 0 <= i < |req.messages| ensures A.CarriedRequest(req).messages[i] == req.messages[i] {
      assert req.messages[i] in req.messages;
    }
  }

  /** OpenAI to Anthropic to OpenAI sends what direct re-encoding sends, without response_format;
      the two are the same text exactly when the request had none. */
  lemma PipelineIsReencoding(w: O.WireRequest, bridgeKeyID: string)
    requires O.NormalizeRequest(w, bridgeKeyID).Ok?
    ensures var req := O.NormalizeRequest(w, bridgeKeyID).value;
            var middle := A.NormalizeRequest(A.DenormalizeRequest(req), bridgeKeyID);
            && middle.Ok?
            && O.DenormalizeRequest(middle.value) == O.DenormalizeRequest(req).(responseFormat := None)
            && (O.DenormalizeRequest(middle.value) == O.DenormalizeRequest(req) <==> w.responseFormat.None?)
  {
    ThroughAnthropic(w, bridgeKeyID);
    var req := O.NormalizeRequest(w, bridgeKeyID).value;
    var direct := O.DenormalizeRequest(req);
    assert direct.responseFormat == w.responseFormat;
  }

  /** The round trip of cross_test.go ends with the request it began with exactly when every message is
      already settled and the stop list is not one empty string. */
  lemma CrossFormatRoundTrip(w: O.WireRequest, bridgeKeyID: string)
    requires O.NormalizeRequest(w, bridgeKeyID).Ok?
    ensures var first := O.NormalizeRequest(w, bridgeKeyID).value;
            var middle := A.NormalizeRequest(A.DenormalizeRequest(first), bridgeKeyID);
            && middle.Ok?
            && var final := O.NormalizeRequest(O.DenormalizeRequest(middle.value), bridgeKeyID);
               && final == Ok(Comparable(O.SettledRequest(first)))
               && (final == Ok(Comparable(first))
                   <==> (forall m | m in first.messages :: O.IsSettled(m)) && first.stopSequences != [""])
  {
    var first := O.NormalizeRequest(w, bridgeKeyID).value;
    ThroughAnthropic(w, bridgeKeyID);
    O.AcceptedIsHeld(w, bridgeKeyID);
    O.RequestReadsBack(Comparable(first));
    O.SettledRequestExactly(Comparable(first));
  }

  /** A request without messages, with this stop value and this response format. */
  function Bare(stop: Option<Json>, responseFormat: Option<Json>): O.WireRequest {
    O.WireRequest("m", [], None, None, 0, stop, false, [], None, responseFormat, "", map[])
  }

  /** A stop list of one empty string is accepted, and does not come back. */
  lemma EmptyStopIsLost(bridgeKeyID: string)
    ensures var first := O.NormalizeRequest(Bare(Some(Arr([Str("")])), None), bridgeKeyID);
      && first.Ok? && first.value.stopSequences == [""]
      && var middle := A.NormalizeRequest(A.DenormalizeRequest(first.value), bridgeKeyID);
         && middle.Ok?
         && O.NormalizeRequest(O.DenormalizeRequest(middle.value), bridgeKeyID) != Ok(Comparable(first.value))
  {
    var w := Bare(Some(Arr([Str("")])), None);
    FlatMapOne(Str(""), O.StringItem);
    assert O.NormalizeMessages([], O.Reading("", [])) == Ok(O.Reading("", []));
    CrossFormatRoundTrip(w, bridgeKeyID);
  }

  /** A response format is accepted, and direct re-encoding sends it where the pipeline does not. */
  lemma ResponseFormatIsLost(bridgeKeyID: string)
    ensures var req := O.NormalizeRequest(Bare(None, Some(Obj(map["type" := Str("json_object")]))), bridgeKeyID);
      && req.Ok?
      && var middle := A.NormalizeRequest(A.DenormalizeRequest(req.value), bridgeKeyID);
         middle.Ok? && O.DenormalizeRequest(middle.value) != O.DenormalizeRequest(req.value)
  {
    var w := Bare(None, Some(Obj(map["type" := Str("json_object")])));
    assert O.NormalizeMessages([], O.Reading("", [])) == Ok(O.Reading("", []));
    PipelineIsReencoding(w, bridgeKeyID);
  }

  // ---------- Anthropic to OpenAI and back ----------

  /** Every accepted Anthropic request can be sent as OpenAI and read back. What comes back survives a further trip
      over the Anthropic form, and is the request itself exactly when it names no MCP servers, its stop list is not
      one empty string, and every message is one the OpenAI form can hold: plain text and image-URL blocks, whole
      text if there is nothing else, then tool calls, or for a tool message one tool result of whole text or
      plain blocks, and no extras anywhere. */
  lemma AnthropicThroughOpenAI(w: A.WireRequest, bridgeKeyID: string)
    requires A.NormalizeRequest(w, bridgeKeyID).Ok?
    ensures var req := A.NormalizeRequest(w, bridgeKeyID).value;
            var back := O.NormalizeRequest(O.DenormalizeRequest(req), bridgeKeyID);
            && back.Ok?
            && A.NormalizeRequest(A.DenormalizeRequest(back.value), bridgeKeyID) == back
            && (back == Ok(req) <==>
                  req.mcpServers == [] && req.stopSequences != [""]
                  && forall m | m in req.messages :: O.HeldMessage(m) && O.IsSettled(m))
  {
    var req := A.NormalizeRequest(w, bridgeKeyID).value;
    var wire := O.DenormalizeRequest(req);
    O.EncodedIsAccepted(req);
    O.OneTripExactly(req);
    ThroughAnthropic(wire, bridgeKeyID);
    var back := O.NormalizeRequest(wire, bridgeKeyID).value;
    assert Comparable(back).extras == back.extras;
  }

  /** A user message that carries a tool result comes back empty. */
  lemma UserToolResultIsLost(result: ToolResult, acc: O.Reading)
    ensures O.NormalizeMessage(O.EncodeMessage(Message("user", [ToolResultBlock(result, map[])])), acc)
      == Ok(acc.(messages := acc.messages + [Message("user", [])]))
  {
    var block := ToolResultBlock(result, map[]);
    FlatMapOne(block, O.EncodePart);
    FlatMapOne(block, O.EncodeCall);
    assert block in [block] && !O.TextOnly([block]);
    assert O.NormalizeContent(Some(Arr([]))) == Ok([]) && O.NormalizeCalls([]) == Ok([]);
  }
}
