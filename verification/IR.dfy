/** The internal representation both wire formats translate to (internal/ir/request.go, tool.go).
    A block is Go's struct: a type tag beside optional parts. The fresh request id, the receive
    time and the ingress name are not part of it. */
module IR {
  import opened Wrappers
  import opened Bytes
  import opened Json

  const ROLE_SYSTEM := "system"
  const ROLE_TOOL := "tool"
  const CONTENT_TEXT := "text"
  const CONTENT_IMAGE := "image"
  const CONTENT_TOOL_USE := "tool_use"
  const CONTENT_TOOL_RESULT := "tool_result"
  const CONTENT_DOCUMENT := "document"

  datatype Block = Block(
    typ: string,
    text: string,
    imageURL: string,
    imageB64: seq<byte>,
    mediaType: string,
    toolUse: Option<ToolUse>,
    toolResult: Option<ToolResult>,
    document: Option<Document>,
    extras: Fields)

  datatype ToolUse = ToolUse(id: string, name: string, arguments: Fields)

  datatype ToolResult = ToolResult(toolUseID: string, content: seq<Block>, isError: bool)

  datatype Document = Document(name: string, mediaType: string, data: seq<byte>, url: string)

  datatype Message = Message(role: string, content: seq<Block>)

  datatype ToolDef = ToolDef(name: string, description: string, inputSchema: Fields)

  datatype MCPServer = MCPServer(typ: string, url: string, name: string, extras: Fields)

  datatype Request = Request(
    bridgeKeyID: string,
    modelAlias: string,
    system: string,
    messages: seq<Message>,
    tools: seq<ToolDef>,
    mcpServers: seq<MCPServer>,
    maxTokens: int,
    temperature: Option<real>,
    topP: Option<real>,
    stopSequences: seq<string>,
    stream: bool,
    metadata: map<string, string>,
    extras: Fields)

  datatype CodecError = BadContent | BadImageData | BadDocumentData | BadToolArguments

  function TextBlock(text: string, extras: Fields): Block {
    Block(CONTENT_TEXT, text, "", [], "", None, None, None, extras)
  }

  function ImageBlock(url: string, data: seq<byte>, mediaType: string, extras: Fields): Block {
    Block(CONTENT_IMAGE, "", url, data, mediaType, None, None, None, extras)
  }

  function ToolUseBlock(use: ToolUse, extras: Fields): Block {
    Block(CONTENT_TOOL_USE, "", "", [], "", Some(use), None, None, extras)
  }

  function ToolResultBlock(result: ToolResult, extras: Fields): Block {
    Block(CONTENT_TOOL_RESULT, "", "", [], "", None, Some(result), None, extras)
  }

  function DocumentBlock(doc: Document, extras: Fields): Block {
    Block(CONTENT_DOCUMENT, "", "", [], "", None, None, Some(doc), extras)
  }

  /** The text blocks joined by newlines; empty texts at the front leave no separator. */
  function BlocksTextFrom(blocks: seq<Block>, text: string): string {
    if blocks == [] then text
    else if blocks[0].typ != CONTENT_TEXT then BlocksTextFrom(blocks[1..], text)
    else BlocksTextFrom(blocks[1..], text + (if text != "" then "\n" else "") + blocks[0].text)
  }

  method BlocksText(blocks: seq<Block>) returns (text: string)
    ensures text == BlocksTextFrom(blocks, "")
  {
    text := "";
    for i := 0 to |blocks|
      invariant BlocksTextFrom(blocks[i..], text) == BlocksTextFrom(blocks, "")
    {
      if blocks[i].typ == CONTENT_TEXT {
        if text != "" {
          text := text + "\n";
        }
        text := text + blocks[i].text;
      }
    }
  }

  // ---------- Texts as lines ----------

  /** Texts joined by newlines. */
  function Lines(texts: seq<string>): string {
    if texts == [] then ""
    else if |texts| == 1 then texts[0]
    else texts[0] + "\n" + Lines(texts[1..])
  }

  function SkipEmpty(texts: seq<string>): seq<string> {
    if texts != [] && texts[0] == "" then SkipEmpty(texts[1..]) else texts
  }

  /** The texts of the text blocks. */
  function TextsOf(blocks: seq<Block>): seq<string> {
    if blocks == [] then []
    else (if blocks[0].typ == CONTENT_TEXT then [blocks[0].text] else []) + TextsOf(blocks[1..])
  }

  lemma LinesMerge(a: string, b: string, rest: seq<string>)
    ensures Lines([a + "\n" + b] + rest) == Lines([a, b] + rest)
  {
    var merged, apart := [a + "\n" + b] + rest, [a, b] + rest;
    assert merged[1..] == rest && apart[1..] == [b] + rest && ([b] + rest)[1..] == rest;
    if rest == [] {
      assert Lines([b]) == b;
    }
  }

  lemma {:induction false} TextOnIsLines(blocks: seq<Block>, text: string)
    requires text != ""
    ensures BlocksTextFrom(blocks, text) == Lines([text] + TextsOf(blocks))
  {
    if blocks == [] {
      assert [text] + TextsOf(blocks) == [text];
      return;
    }
    var later := blocks[1..];
    if blocks[0].typ == CONTENT_TEXT {
      TextOnIsLines(later, text + "\n" + blocks[0].text);
      LinesMerge(text, blocks[0].text, TextsOf(later));
      assert [text] + ([blocks[0].text] + TextsOf(later)) == [text, blocks[0].text] + TextsOf(later);
    } else {
      TextOnIsLines(later, text);
      assert TextsOf(blocks) == TextsOf(later);
    }
  }

  /** The text of blocks is their texts joined by newlines, from the first that is not empty on. */
  lemma {:induction false} BlocksTextIsLines(blocks: seq<Block>)
    ensures BlocksTextFrom(blocks, "") == Lines(SkipEmpty(TextsOf(blocks)))
  {
    if blocks == [] {
      return;
    }
    var later := blocks[1..];
    if blocks[0].typ == CONTENT_TEXT {
      assert "" + "" + blocks[0].text == blocks[0].text;
      if blocks[0].text == "" {
        BlocksTextIsLines(later);
        assert ([blocks[0].text] + TextsOf(later))[1..] == TextsOf(later);
      } else {
        TextOnIsLines(later, blocks[0].text);
      }
    } else {
      BlocksTextIsLines(later);
      assert TextsOf(blocks) == TextsOf(later);
    }
  }

  lemma {:induction false} TextsAppend(a: seq<Block>, b: seq<Block>)
    ensures TextsOf(a + b) == TextsOf(a) + TextsOf(b)
  {
    if a == [] {
      assert a + b == b;
      return;
    }
    assert (a + b)[1..] == a[1..] + b;
    TextsAppend(a[1..], b);
    var own := if a[0].typ == CONTENT_TEXT then [a[0].text] else [];
    assert own + (TextsOf(a[1..]) + TextsOf(b)) == (own + TextsOf(a[1..])) + TextsOf(b);
  }
}
