/** What the event-stream reader makes of any body, said about its lines and the JSON of its chunks alone. */
module StreamReading {
  import opened Wrappers
  import opened Bytes
  import opened Json
  import opened IR
  import opened Seqs
  import opened SseStream

  // ---------- The JSON of a chunk ----------

  /** A member that is a string, or null or missing. */
  predicate IsText(m: Fields, key: string) {
    Lookup(m, key).Str? || Lookup(m, key).Null?
  }

  function Text(m: Fields, key: string): string {
    if Lookup(m, key).Str? then Lookup(m, key).s else ""
  }

  predicate IsStruct(j: Json) {
    j.Obj? || j.Null?
  }

  function Items(m: Fields, key: string): seq<Json> {
    if Lookup(m, key).Arr? then Lookup(m, key).a else []
  }

  predicate IsList(m: Fields, key: string) {
    Lookup(m, key).Arr? || Lookup(m, key).Null?
  }

  predicate IsWhole(m: Fields, key: string) {
    Lookup(m, key).Null? || (Lookup(m, key).Num? && Lookup(m, key).n.Floor as real == Lookup(m, key).n)
  }

  function Whole(m: Fields, key: string): int {
    if Lookup(m, key).Num? then Lookup(m, key).n.Floor else 0
  }

  predicate CallShaped(j: Json) {
    IsStruct(j) &&
    var m := PartFields(j);
    && IsText(m, "id") && IsWhole(m, "index") && IsStruct(Lookup(m, "function"))
    && IsText(PartFields(Lookup(m, "function")), "name") && IsText(PartFields(Lookup(m, "function")), "arguments")
  }

  predicate ChoiceShaped(j: Json) {
    IsStruct(j) &&
    var m := PartFields(j);
    && IsStruct(Lookup(m, "delta")) && IsText(m, "finish_reason")
    && var delta := PartFields(Lookup(m, "delta"));
       && IsText(delta, "content") && IsText(delta, "role") && IsList(delta, "tool_calls")
       && forall c | c in Items(delta, "tool_calls") :: CallShaped(c)
  }

  /** Every member the reader looks at has the type it expects, in all choices. */
  predicate Shaped(j: Json) {
    && IsStruct(j) && IsList(PartFields(j), "choices")
    && forall c | c in Items(PartFields(j), "choices") :: ChoiceShaped(c)
  }

  function SaidCall(call: Json): Event {
    var m := PartFields(call);
    var fn := PartFields(Lookup(m, "function"));
    FragmentEvent(Whole(m, "index"), Text(m, "id"), Text(fn, "name"), Text(fn, "arguments"))
  }

  function SaidCalls(calls: seq<Json>): (r: seq<Event>)
    ensures |r| == |calls| && forall i | 0 <= i < |calls| :: r[i] == SaidCall(calls[i])
  {
    seq(|calls|, i requires 0 <= i < |calls| => SaidCall(calls[i]))
  }

  function SaidStop(reason: string): seq<Event> {
    if reason == "" then []
    else if reason == "length" then [StopEvent(STOP_MAX_TOKENS)]
    else if reason == "tool_calls" then [StopEvent(STOP_TOOL_USE)]
    else [StopEvent(STOP_END_TURN)]
  }

  /** The events of a chunk: of its first choice the text if there is any, every tool-call fragment, and the stop if
      there is a reason; none when the chunk is not shaped right or has no choice. */
  function Said(j: Json): seq<Event> {
    if !Shaped(j) || Items(PartFields(j), "choices") == [] then []
    else
      var m := PartFields(Items(PartFields(j), "choices")[0]);
      var delta := PartFields(Lookup(m, "delta"));
      (if Text(delta, "content") == "" then [] else [TextEvent(Text(delta, "content"))])
      + SaidCalls(Items(delta, "tool_calls")) + SaidStop(Text(m, "finish_reason"))
  }

  lemma CallReads(j: Json)
    ensures DecodeToolCall(j).Some? <==> CallShaped(j)
    ensures CallShaped(j) ==> FragmentOf(DecodeToolCall(j).value) == SaidCall(j)
  {
  }

  lemma {:induction false} CallsAccepted(calls: seq<Json>)
    ensures DecodeToolCalls(calls).Some? <==> forall c | c in calls :: CallShaped(c)
  {
    if calls != [] {
      CallReads(calls[0]);
      CallsAccepted(calls[1..]);
      assert calls[0] in calls && (forall c | c in calls :: c == calls[0] || c in calls[1..]);
      assert forall c | c in calls[1..] :: c in calls;
    }
  }

  lemma {:induction false} CallsRead(calls: seq<Json>)
    requires DecodeToolCalls(calls).Some?
    ensures Fragments(DecodeToolCalls(calls).value) == SaidCalls(calls)
  {
    if calls == [] {
      return;
    }
    CallReads(calls[0]);
    CallsRead(calls[1..]);
    FirstFragment(DecodeToolCall(calls[0]).value, DecodeToolCalls(calls[1..]).value);
    FirstSaid(calls);
  }

  lemma FirstSaid(calls: seq<Json>)
    requires calls != []
    ensures SaidCalls(calls) == [SaidCall(calls[0])] + SaidCalls(calls[1..])
  {
  }

  lemma FirstFragment(call: ToolCall, later: seq<ToolCall>)
    ensures Fragments([call] + later) == [FragmentOf(call)] + Fragments(later)
  {
    assert ([call] + later)[1..] == later;
  }

  lemma ChoiceRead(j: Json)
    ensures DecodeChoice(j).Some? <==> ChoiceShaped(j)
    ensures ChoiceShaped(j) ==>
      var c, m := DecodeChoice(j).value, PartFields(j);
      var delta := PartFields(Lookup(m, "delta"));
      && c.content == Text(delta, "content") && c.finishReason == Text(m, "finish_reason")
      && Fragments(c.toolCalls) == SaidCalls(Items(delta, "tool_calls"))
  {
    var calls := Items(PartFields(Lookup(PartFields(j), "delta")), "tool_calls");
    CallsAccepted(calls);
    if DecodeToolCalls(calls).Some? {
      CallsRead(calls);
    }
  }

  lemma {:induction false} ChoicesRead(a: seq<Json>)
    ensures DecodeChoices(a).Some? <==> forall c | c in a :: ChoiceShaped(c)
    ensures DecodeChoices(a).Some? ==>
      |DecodeChoices(a).value| == |a| && (a != [] ==> DecodeChoices(a).value[0] == DecodeChoice(a[0]).value)
  {
    if a != [] {
      ChoiceRead(a[0]);
      ChoicesRead(a[1..]);
      assert a[0] in a && (forall c | c in a :: c == a[0] || c in a[1..]);
      assert forall c | c in a[1..] :: c in a;
    }
  }

  /** Any JSON value is read as what it says. */
  lemma ChunkReadsAs(j: Json)
    ensures ChunkEvents(Some(j)) == Said(j)
  {
    ChoicesRead(Items(PartFields(j), "choices"));
    FirstChoiceDecoded(j);
    if Shaped(j) && Items(PartFields(j), "choices") != [] {
      ChoiceSays(Items(PartFields(j), "choices")[0]);
    }
  }

  lemma FirstChoiceDecoded(j: Json)
    ensures var list := Items(PartFields(j), "choices");
      DecodeChunk(j) == if !IsStruct(j) || !IsList(PartFields(j), "choices") || DecodeChoices(list).None? || list == []
                        then None else Some(DecodeChoices(list).value[0])
  {
    ChoicesRead(Items(PartFields(j), "choices"));
  }

  lemma ChoiceSays(choice: Json)
    requires ChoiceShaped(choice)
    ensures var m := PartFields(choice);
      var delta := PartFields(Lookup(m, "delta"));
      DecodeChoice(choice).Some? &&
      ChoiceEvents(DecodeChoice(choice).value)
      == (if Text(delta, "content") == "" then [] else [TextEvent(Text(delta, "content"))])
         + SaidCalls(Items(delta, "tool_calls")) + SaidStop(Text(m, "finish_reason"))
  {
    ChoiceRead(choice);
  }

  // ---------- The lines of a body ----------

  /** The data a line carries, if it is a data line. */
  function DataIn(line: seq<byte>): Option<seq<byte>> {
    if DATA <= TrimSpace(line) then Some(TrimSpace(TrimSpace(line)[|DATA|..])) else None
  }

  function SaidLine(line: seq<byte>, unmarshal: seq<byte> -> Option<Json>): seq<Event> {
    match DataIn(line)
    case None => []
    case Some(data) => if unmarshal(data).Some? then Said(unmarshal(data).value) else []
  }

  /** The events of lines up to the first that carries the end mark, which is a stop. */
  function SaidLines(lines: seq<seq<byte>>, unmarshal: seq<byte> -> Option<Json>): seq<Event> {
    if lines == [] then []
    else if DataIn(lines[0]) == Some(DONE) then [StopEvent(STOP_END_TURN)]
    else SaidLine(lines[0], unmarshal) + SaidLines(lines[1..], unmarshal)
  }

  /** Lines, each with its end. */
  function Terminated(lines: seq<seq<byte>>): seq<byte> {
    if lines == [] then [] else lines[0] + ([LF] + Terminated(lines[1..]))
  }

  lemma LineSaid(line: seq<byte>, unmarshal: seq<byte> -> Option<Json>)
    requires DataIn(line).Some? && DataIn(line).value != DONE
    ensures ChunkEvents(unmarshal(DataIn(line).value)) == SaidLine(line, unmarshal)
  {
    var json := unmarshal(DataIn(line).value);
    if json.Some? {
      ChunkReadsAs(json.value);
    }
  }

  lemma LineFirst(line: seq<byte>, rest: seq<byte>)
    requires LF !in line
    ensures var body := line + ([LF] + rest);
      LineLength(body) == |line| && body[..|line|] == line && body[|line| + 1..] == rest && body != []
  {
    LineLengthOf(line, rest);
    assert line + ([LF] + rest) == line + [LF] + rest;
  }

  /** A last line that does not end is read as well, unless it is empty. */
  lemma LastLineRead(last: seq<byte>, unmarshal: seq<byte> -> Option<Json>)
    requires LF !in last
    ensures ReadLines(last, unmarshal) == SaidLines(if last == [] then [] else [last], unmarshal)
  {
    if last != [] {
      assert last[..|last|] == last && [last][1..] == [];
      assert LineLength(last) == |last|;
      LineSays(last, [], [], unmarshal);
    }
  }

  /** One line in front of what is read of the rest. */
  lemma LineSays(line: seq<byte>, rest: seq<byte>, later: seq<seq<byte>>, unmarshal: seq<byte> -> Option<Json>)
    requires ReadLines(rest, unmarshal) == SaidLines(later, unmarshal)
    ensures SaidLines([line] + later, unmarshal)
      == match DataIn(line)
         case None => ReadLines(rest, unmarshal)
         case Some(data) =>
           if data == DONE then [StopEvent(STOP_END_TURN)]
           else ChunkEvents(unmarshal(data)) + ReadLines(rest, unmarshal)
  {
    FirstLineSays(line, later, unmarshal);
    if DataIn(line).None? {
      assert [] + SaidLines(later, unmarshal) == SaidLines(later, unmarshal);
    } else if DataIn(line).value != DONE {
      LineSaid(line, unmarshal);
    }
  }

  lemma FirstLineSays(line: seq<byte>, later: seq<seq<byte>>, unmarshal: seq<byte> -> Option<Json>)
    ensures SaidLines([line] + later, unmarshal)
      == if DataIn(line) == Some(DONE) then [StopEvent(STOP_END_TURN)]
         else SaidLine(line, unmarshal) + SaidLines(later, unmarshal)
  {
    assert ([line] + later)[1..] == later;
  }

  lemma {:induction false} LinesRead(lines: seq<seq<byte>>, last: seq<byte>, unmarshal: seq<byte> -> Option<Json>)
    requires LF !in last && forall line | line in lines :: LF !in line
    ensures ReadLines(Terminated(lines) + last, unmarshal)
      == SaidLines(lines + (if last == [] then [] else [last]), unmarshal)
  {
    var tail := if last == [] then [] else [last];
    if lines == [] {
      assert Terminated(lines) + last == last && lines + tail == tail;
      LastLineRead(last, unmarshal);
      return;
    }
    var line, rest, later := lines[0], Terminated(lines[1..]) + last, lines[1..] + tail;
    assert Terminated(lines) + last == line + ([LF] + rest) && lines + tail == [line] + later;
    LineFirst(line, rest);
    LinesRead(lines[1..], last, unmarshal);
    LineSays(line, rest, later, unmarshal);
  }

  /** Any body is some lines, each with its end, and a last one without: the reader sends the start and then what the
      lines say, up to the first that carries the end mark. */
  lemma StreamSays(lines: seq<seq<byte>>, last: seq<byte>, unmarshal: seq<byte> -> Option<Json>)
    requires LF !in last && forall line | line in lines :: LF !in line
    ensures ReadStream(Terminated(lines) + last, unmarshal)
      == [StartEvent()] + SaidLines(lines + (if last == [] then [] else [last]), unmarshal)
  {
    LinesRead(lines, last, unmarshal);
  }
}
