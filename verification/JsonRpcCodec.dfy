/** JSON-RPC framing on a byte stream (internal/cliacp/jsonrpc.go): Content-Length headers as in the header
    part of the LSP 3.17 base protocol, or one message per line. A payload is the JSON text of a message. */
module JsonRpcCodec {
  import opened Wrappers
  import opened Bytes
  import opened Seqs

  datatype FrameError = EndOfInput | MalformedHeader | InvalidLength | MissingLength

  /** One Recv: a payload or an error, and the input that is left. */
  datatype Received = Frame(payload: seq<byte>, rest: seq<byte>) | Failed(error: FrameError, rest: seq<byte>)

  // "content-length" and "Content-Length"
  const CONTENT_LENGTH: seq<byte> := [99, 111, 110, 116, 101, 110, 116, 45, 108, 101, 110, 103, 116, 104]
  const CONTENT_LENGTH_NAME: seq<byte> := [67, 111, 110, 116, 101, 110, 116, 45, 76, 101, 110, 103, 116, 104]

  // ---------- Reading ----------

  /** strings.TrimRight(line, "\r\n"). */
  function TrimEnd(line: seq<byte>): (r: seq<byte>)
    ensures r <= line
  {
    if line != [] && (line[|line| - 1] == CR || line[|line| - 1] == LF) then TrimEnd(line[..|line| - 1]) else line
  }

  function Lower(b: byte): byte {
    if 65 <= b <= 90 then b + 32 else b
  }

  /** Case-insensitive equality with an ASCII name none of whose letters folds to a non-ASCII rune. */
  predicate EqualFold(s: seq<byte>, lower: seq<byte>) {
    |s| == |lower| && forall i | 0 <= i < |s| :: Lower(s[i]) == lower[i]
  }

  /** What one header line does to the length read so far. */
  function HeaderLine(line: seq<byte>, length: int): Result<int, FrameError> {
    var colon := IndexOf(line, COLON);
    if colon == |line| then Err(MalformedHeader)
    else if EqualFold(TrimSpace(line[..colon]), CONTENT_LENGTH) then
      var parsed := Atoi(TrimSpace(line[colon + 1..]));
      if parsed.None? || parsed.value < 0 then Err(InvalidLength) else Ok(parsed.value)
    else Ok(length)
  }

  /** The header loop, then the body. */
  function RecvFrom(input: seq<byte>, length: int): (r: Received)
    ensures |r.rest| <= |input|
    ensures r.Frame? ==> |r.rest| < |input|
  {
    var n := LineLength(input);
    if n == |input| then Failed(EndOfInput, [])
    else
      var line, rest := TrimEnd(input[..n + 1]), input[n + 1..];
      if line == [] then Body(rest, length)
      else
        var next := HeaderLine(line, length);
        if next.Err? then Failed(next.error, rest) else RecvFrom(rest, next.value)
  }

  function Body(input: seq<byte>, length: int): (r: Received)
    ensures |r.rest| <= |input|
  {
    if length < 0 then Failed(MissingLength, input)
    else if |input| < length then Failed(EndOfInput, [])
    else Frame(input[..length], input[length..])
  }

  function Recv(input: seq<byte>): (r: Received)
    ensures r.Frame? ==> |r.rest| < |input|
  {
    RecvFrom(input, -1)
  }

  /** Line framing: the next line without the white space around it. */
  function RecvLine(input: seq<byte>): (r: Received)
    ensures r.Frame? ==> |r.rest| < |input|
  {
    var n := LineLength(input);
    if n == |input| then Failed(EndOfInput, []) else Frame(TrimSpace(input[..n + 1]), input[n + 1..])
  }

  function RecvOne(input: seq<byte>, ndjson: bool): (r: Received)
    ensures r.Frame? ==> |r.rest| < |input|
  {
    if ndjson then RecvLine(input) else Recv(input)
  }

  /** Every payload of a stream, if it is nothing but whole frames. */
  function RecvAll(input: seq<byte>, ndjson: bool): Option<seq<seq<byte>>>
    decreases |input|
  {
    if input == [] then Some([])
    else
      var r := RecvOne(input, ndjson);
      if r.Failed? then None
      else
        var rest := RecvAll(r.rest, ndjson);
        if rest.None? then None else Some([r.payload] + rest.value)
  }

  // ---------- Writing ----------

  const CRLF: seq<byte> := [CR, LF]

  datatype Field = Field(name: seq<byte>, value: seq<byte>)

  function FieldText(f: Field): seq<byte> {
    f.name + [COLON] + f.value
  }

  function FieldLine(f: Field): seq<byte> {
    FieldText(f) + CRLF
  }

  function FieldLines(fs: seq<Field>): seq<byte> {
    if fs == [] then [] else FieldLine(fs[0]) + FieldLines(fs[1..])
  }

  function LengthField(n: nat): Field {
    Field(CONTENT_LENGTH_NAME, [SPACE] + Decimal(n))
  }

  /** What Send writes. */
  function Encode(payload: seq<byte>, ndjson: bool): seq<byte> {
    if ndjson then payload + [LF] else FieldLine(LengthField(|payload|)) + CRLF + payload
  }

  /** A header field other than Content-Length: an ASCII name without a colon, no line feed anywhere. */
  ghost predicate OtherField(f: Field) {
    && (forall b | b in f.name :: b < 128 && b != COLON && b != LF)
    && LF !in f.value
    && !EqualFold(TrimSpace(f.name), CONTENT_LENGTH)
  }

  /** A frame as any peer may write it: other fields before and after the length. */
  datatype PeerFrame = PeerFrame(before: seq<Field>, payload: seq<byte>, after: seq<Field>) {
    function Onto(rest: seq<byte>): seq<byte> {
      FieldLines(before) + (FieldLine(LengthField(|payload|)) + (FieldLines(after) + (CRLF + (payload + rest))))
    }

    function Bytes(): seq<byte> {
      Onto([])
    }

    ghost predicate Valid() {
      && (forall f | f in before :: OtherField(f)) && (forall f | f in after :: OtherField(f))
      && |payload| < INT_LIMIT
    }
  }

  // ---------- What is written is read back ----------

  /** Trimming a line that holds a colon keeps everything up to the colon, and ends no later than the CRLF. */
  lemma {:induction false} TrimEndKeeps(head: seq<byte>, tail: seq<byte>)
    requires head != [] && head[|head| - 1] != CR && head[|head| - 1] != LF
    ensures head <= TrimEnd(head + tail)
  {
    var s := head + tail;
    if tail != [] && (s[|s| - 1] == CR || s[|s| - 1] == LF) {
      var last := |tail| - 1;
      assert s[..|s| - 1] == head + tail[..last];
      TrimEndKeeps(head, tail[..last]);
    }
  }

  lemma TrimEndExact(s: seq<byte>)
    requires s != [] && s[|s| - 1] != CR && s[|s| - 1] != LF
    ensures TrimEnd(s + CRLF) == s
  {
    var all := s + CRLF;
    assert all[..|s| + 1] == s + [CR];
    assert (s + [CR])[..|s|] == s;
    assert TrimEnd(s + [CR]) == TrimEnd(s) == s;
  }

  lemma LineSplits(text: seq<byte>, rest: seq<byte>)
    requires LF !in text
    ensures var input := (text + CRLF) + rest;
            LineLength(input) == |text| + 1 && input[..|text| + 2] == text + CRLF && input[|text| + 2..] == rest
  {
    var head := text + [CR];
    assert LF !in head;
    LineLengthOf(head, rest);
    assert text + CRLF == head + [LF];
  }

  /** One header line at the front of the input, up to what RecvFrom does with the trimmed line. */
  lemma LineAtFront(text: seq<byte>, rest: seq<byte>, length: int)
    requires LF !in text
    ensures var line := TrimEnd(text + CRLF);
            RecvFrom((text + CRLF) + rest, length) ==
              if line == [] then Body(rest, length)
              else if HeaderLine(line, length).Err? then Failed(HeaderLine(line, length).error, rest)
              else RecvFrom(rest, HeaderLine(line, length).value)
  {
    LineSplits(text, rest);
  }

  lemma OtherHeader(f: Field, length: int)
    requires OtherField(f)
    ensures LF !in FieldText(f) && TrimEnd(FieldLine(f)) != []
        && HeaderLine(TrimEnd(FieldLine(f)), length) == Ok(length)
  {
    var head := f.name + [COLON];
    var tail := f.value + CRLF;
    Assoc(head, f.value, CRLF);
    TrimEndKeeps(head, tail);
    var line := TrimEnd(head + tail);
    var kept := line[|head|..];
    assert line == head + kept;
    ColonSplits(f.name, kept);
  }

  lemma ColonSplits(name: seq<byte>, value: seq<byte>)
    requires COLON !in name
    ensures var text := name + [COLON] + value;
            IndexOf(text, COLON) == |name| && text[..|name|] == name && text[|name| + 1..] == value
  {
    IndexOfFirst(name, COLON, value);
  }

  lemma LengthHeader(f: Field, n: nat, length: int)
    requires COLON !in f.name && LF !in f.name && LF !in f.value
    requires f.value != [] && f.value[|f.value| - 1] != CR
    requires EqualFold(TrimSpace(f.name), CONTENT_LENGTH) && Atoi(TrimSpace(f.value)) == Some(n)
    ensures LF !in FieldText(f) && TrimEnd(FieldLine(f)) != [] && HeaderLine(TrimEnd(FieldLine(f)), length) == Ok(n)
  {
    var text := FieldText(f);
    assert f.value[|f.value| - 1] in f.value;
    assert text[|text| - 1] == f.value[|f.value| - 1];
    TrimEndExact(text);
    ColonSplits(f.name, f.value);
  }

  lemma LengthName()
    ensures COLON !in CONTENT_LENGTH_NAME && LF !in CONTENT_LENGTH_NAME
    ensures EqualFold(TrimSpace(CONTENT_LENGTH_NAME), CONTENT_LENGTH)
  {
    var name := CONTENT_LENGTH_NAME;
    assert TrimLeft(name) == name && TrimRight(name) == name;
  }

  /** The line Send writes sets the length. */
  lemma LengthLineRead(n: nat, rest: seq<byte>, length: int)
    requires n < INT_LIMIT
    ensures RecvFrom(FieldLine(LengthField(n)) + rest, length) == RecvFrom(rest, n)
  {
    var f := LengthField(n);
    LengthName();
    LengthValue(n);
    LengthHeader(f, n, length);
    LineAtFront(FieldText(f), rest, length);
  }

  lemma LengthValue(n: nat)
    requires n < INT_LIMIT
    ensures var value := LengthField(n).value;
            value != [] && LF !in value && value[|value| - 1] != CR && Atoi(TrimSpace(value)) == Some(n)
  {
    var digits := Decimal(n);
    DecimalRoundTrip(n);
    assert digits[|digits| - 1] in digits && digits[0] in digits;
    TrimSpaceAround([SPACE], digits, []);
    assert [SPACE] + digits + [] == [SPACE] + digits;
    AtoiDecimal(n);
  }

  lemma {:induction false} OtherFieldsSkipped(fs: seq<Field>, rest: seq<byte>, length: int)
    requires forall f | f in fs :: OtherField(f)
    ensures RecvFrom(FieldLines(fs) + rest, length) == RecvFrom(rest, length)
  {
    if fs == [] {
      assert [] + rest == rest;
    } else {
      var more := FieldLines(fs[1..]);
      OtherFieldsSkipped(fs[1..], rest, length);
      OtherHeader(fs[0], length);
      LineAtFront(FieldText(fs[0]), more + rest, length);
      Assoc(FieldLine(fs[0]), more, rest);
    }
  }

  lemma BlankLine(payload: seq<byte>, rest: seq<byte>)
    ensures RecvFrom(CRLF + (payload + rest), |payload|) == Frame(payload, rest)
  {
    var body := payload + rest;
    LineAtFront([], body, |payload|);
    assert [] + CRLF == CRLF;
    assert TrimEnd(CRLF) == [] by {
      assert CRLF[..1] == [CR] && [CR][..0] == [];
    }
    assert body[..|payload|] == payload && body[|payload|..] == rest;
  }

  /** One Recv reads back one frame and leaves exactly what follows it. */
  lemma PeerFrameRead(frame: PeerFrame, rest: seq<byte>)
    requires frame.Valid()
    ensures Recv(frame.Onto(rest)) == Frame(frame.payload, rest)
  {
    var n := |frame.payload|;
    var body := CRLF + (frame.payload + rest);
    var mid := FieldLines(frame.after) + body;
    OtherFieldsSkipped(frame.before, FieldLine(LengthField(n)) + mid, -1);
    LengthLineRead(n, mid, -1);
    OtherFieldsSkipped(frame.after, body, n);
    BlankLine(frame.payload, rest);
  }

  lemma OntoAppends(frame: PeerFrame, rest: seq<byte>)
    ensures frame.Bytes() + rest == frame.Onto(rest)
  {
    var a, b, c := FieldLines(frame.before), FieldLine(LengthField(|frame.payload|)), FieldLines(frame.after);
    var p := frame.payload + [];
    Assoc(a, b + (c + (CRLF + p)), rest);
    Assoc(b, c + (CRLF + p), rest);
    Assoc(c, CRLF + p, rest);
    Assoc(CRLF, p, rest);
    assert p == frame.payload;
  }

  lemma RecvAllStep(input: seq<byte>, ndjson: bool, p: seq<byte>, rest: seq<byte>)
    requires input != [] && RecvOne(input, ndjson) == Frame(p, rest)
    ensures RecvAll(rest, ndjson).Some? ==> RecvAll(input, ndjson) == Some([p] + RecvAll(rest, ndjson).value)
  {
  }

  function Stream(frames: seq<PeerFrame>): seq<byte> {
    if frames == [] then [] else frames[0].Bytes() + Stream(frames[1..])
  }

  function Payloads(frames: seq<PeerFrame>): seq<seq<byte>> {
    if frames == [] then [] else [frames[0].payload] + Payloads(frames[1..])
  }

  /** Repeated Recv over concatenated frames gives exactly their payloads and consumes every byte. */
  lemma {:induction false} StreamRoundTrip(frames: seq<PeerFrame>)
    requires forall f: PeerFrame | f in frames :: f.Valid()
    ensures RecvAll(Stream(frames), false) == Some(Payloads(frames))
  {
    if frames != [] {
      StreamRoundTrip(frames[1..]);
      var rest := Stream(frames[1..]);
      PeerFrameRead(frames[0], rest);
      NotEmpty(frames[0], rest);
      RecvAllStep(frames[0].Onto(rest), false, frames[0].payload, rest);
      OntoAppends(frames[0], rest);
    }
  }

  lemma NotEmpty(frame: PeerFrame, rest: seq<byte>)
    ensures frame.Onto(rest) != []
  {
    assert |CRLF + (frame.payload + rest)| > 0;
  }

  function SentStream(payloads: seq<seq<byte>>, ndjson: bool): seq<byte> {
    if payloads == [] then [] else Encode(payloads[0], ndjson) + SentStream(payloads[1..], ndjson)
  }

  /** What line framing can carry: no line feed inside, no white space at the ends. */
  ghost predicate LineSafe(p: seq<byte>) {
    LF !in p && Trimmed(p)
  }

  /** What Send wrote, payload after payload, is what repeated Recv returns. */
  lemma {:induction false} SentRoundTrip(payloads: seq<seq<byte>>, ndjson: bool)
    requires forall p | p in payloads :: if ndjson then LineSafe(p) else |p| < INT_LIMIT
    ensures RecvAll(SentStream(payloads, ndjson), ndjson) == Some(payloads)
  {
    if payloads != [] {
      SentRoundTrip(payloads[1..], ndjson);
      FirstSentRead(payloads, ndjson, SentStream(payloads, ndjson), SentStream(payloads[1..], ndjson));
    }
  }

  lemma {:induction false} FirstSentRead(payloads: seq<seq<byte>>, ndjson: bool, input: seq<byte>, rest: seq<byte>)
    requires payloads != [] && if ndjson then LineSafe(payloads[0]) else |payloads[0]| < INT_LIMIT
    requires input == Encode(payloads[0], ndjson) + rest && RecvAll(rest, ndjson) == Some(payloads[1..])
    ensures RecvAll(input, ndjson) == Some(payloads)
  {
    SentRead(payloads[0], ndjson, rest);
    RecvAllOn(input, ndjson, payloads, rest);
  }

  lemma RecvAllOn(input: seq<byte>, ndjson: bool, payloads: seq<seq<byte>>, rest: seq<byte>)
    requires input != [] && payloads != [] && RecvOne(input, ndjson) == Frame(payloads[0], rest)
    requires RecvAll(rest, ndjson) == Some(payloads[1..])
    ensures RecvAll(input, ndjson) == Some(payloads)
  {
    RecvAllStep(input, ndjson, payloads[0], rest);
    assert payloads == [payloads[0]] + payloads[1..];
  }

  lemma SentRead(p: seq<byte>, ndjson: bool, rest: seq<byte>)
    requires if ndjson then LineSafe(p) else |p| < INT_LIMIT
    ensures var input := Encode(p, ndjson) + rest; input != [] && RecvOne(input, ndjson) == Frame(p, rest)
  {
    if ndjson {
      LineRead(p, rest);
    } else {
      FrameRead(p, rest);
    }
  }

  lemma LineRead(p: seq<byte>, rest: seq<byte>)
    requires LineSafe(p)
    ensures var input := Encode(p, true) + rest; input != [] && RecvLine(input) == Frame(p, rest)
  {
    var line := p + [LF];
    var input := line + rest;
    LineLengthOf(p, rest);
    assert input[..|p| + 1] == line && input[|p| + 1..] == rest;
    if p != [] {
      TrimSpaceAround([], p, [LF]);
      assert [] + p == p;
    } else {
      assert line == [LF] && TrimLeft([LF]) == TrimLeft([LF][1..]) == [];
    }
  }

  lemma FrameRead(p: seq<byte>, rest: seq<byte>)
    requires |p| < INT_LIMIT
    ensures var input := Encode(p, false) + rest; input != [] && Recv(input) == Frame(p, rest)
  {
    var frame := PeerFrame([], p, []);
    PeerFrameRead(frame, rest);
    NotEmpty(frame, rest);
    var field := FieldLine(LengthField(|p|));
    Assoc(field + CRLF, p, rest);
    Assoc(field, CRLF, p + rest);
    var tail := CRLF + (p + rest);
    assert [] + tail == tail && [] + (field + tail) == field + tail;
  }

  // ---------- The codec object ----------

  class Codec {
    const ndjson: bool
    var input: seq<byte>   // what the reader has not delivered yet
    var output: seq<byte>  // what was written

    constructor (ndjson: bool, input: seq<byte>)
      ensures this.ndjson == ndjson && this.input == input && output == []
    {
      this.ndjson := ndjson;
      this.input := input;
      output := [];
    }

    method Send(payload: seq<byte>)
      modifies `output
      ensures output == old(output) + Encode(payload, ndjson)
    {
      if ndjson {
        output := output + payload;
        output := output + [LF];
        Assoc(old(output), payload, [LF]);
        return;
      }
      var header := FieldLine(LengthField(|payload|)) + CRLF;
      output := output + header;
      output := output + payload;
      Assoc(old(output), header, payload);
    }

    /** ReadString: the next line with its line feed; at the end of the input everything is consumed. */
    method ReadLine() returns (line: Option<seq<byte>>)
      modifies `input
      ensures var n := LineLength(old(input));
              if n == |old(input)| then line == None && input == []
              else line == Some(old(input)[..n + 1]) && input == old(input)[n + 1..]
    {
      var n := LineLength(input);
      if n == |input| {
        input := [];
        return None;
      }
      line := Some(input[..n + 1]);
      input := input[n + 1..];
    }

    method Recv() returns (r: Received)
      modifies `input
      ensures r == RecvOne(old(input), ndjson) && input == r.rest
    {
      if ndjson {
        var line := ReadLine();
        if line.None? {
          return Failed(EndOfInput, input);
        }
        return Frame(TrimSpace(line.value), input);
      }
      var length := -1;
      while true
        invariant RecvFrom(old(input), -1) == RecvFrom(input, length)
        decreases |input|
      {
        var line := ReadLine();
        if line.None? {
          return Failed(EndOfInput, input);
        }
        var text := TrimEnd(line.value);
        if text == [] {
          break;
        }
        var next := HeaderLine(text, length);
        if next.Err? {
          return Failed(next.error, input);
        }
        length := next.value;
      }
      r := Body(input, length);
      input := r.rest;
    }
  }
}
