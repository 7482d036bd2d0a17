/** The call loop of an ACP process (internal/cliacp/process.go): one call at a time on a stream of messages
    from the peer. Writes succeed and nothing is cancelled; the peer's messages come as a sequence. */
module JsonRpcCalls {
  import opened Wrappers
  import opened Bytes
  import opened Seqs

  /** The id of a decoded message: absent or null, a number, a string, or some other JSON value. */
  datatype Id = NoId | Number(n: int) | Text(s: seq<byte>) | Other

  datatype RpcError = RpcError(code: int, message: string)

  datatype Message = Message(id: Id, method_: string, error: Option<RpcError>, result: string)

  /** What the process writes: its own requests, and error replies to the peer's. */
  datatype Sent = Request(callID: nat, method_: string) | Refusal(peerID: Id, code: int, peerMethod: string)

  const METHOD_NOT_FOUND := -32601

  // ---------- Matching ids ----------

  function TrimZeros(digits: seq<byte>): (r: seq<byte>)
    requires digits != []
    ensures r != []
  {
    if |digits| > 1 && digits[|digits| - 1] == ZERO then TrimZeros(digits[..|digits| - 1]) else digits
  }

  /** How fmt prints a whole float64: plain digits below a million, otherwise mantissa and exponent. */
  function FloatText(n: nat): seq<byte> {
    var digits := Decimal(n);
    if |digits| <= 6 then digits
    else
      var m, exponent := TrimZeros(digits), Decimal(|digits| - 1);
      m[..1] + (if |m| > 1 then [46] + m[1..] else []) + [101, 43] + (if |exponent| < 2 then [ZERO] else []) + exponent
  }

  /** sameID: equal as printed, either to the integer or to the float of the call's id. */
  predicate SameId(id: Id, call: nat) {
    match id
    case Number(n) => n == call
    case Text(s) => s == Decimal(call) || s == FloatText(call)
    case _ => false
  }

  /** A number matches exactly the call it equals. Up to six digits a text matches exactly when it is the decimal;
      above, also when it is the scientific form: one digit, a point and the others without their trailing zeros, and
      the exponent in at least two digits. */
  lemma SameIdExactly(id: Id, call: nat)
    ensures id.Number? ==> (SameId(id, call) <==> id.n == call)
    ensures id.NoId? || id.Other? ==> !SameId(id, call)
    ensures id.Text? && call < 1_000_000 ==> (SameId(id, call) <==> id.s == Decimal(call))
    ensures id.Text? && call >= 1_000_000 ==>
      (SameId(id, call) <==> id.s == Decimal(call) || exists m, e :: Scientific(id.s, call, m, e))
  {
    SixDigits(call, 6);
    if id.Text? && call >= 1_000_000 {
      ScientificExactly(id.s, call);
    }
  }

  lemma {:induction false} SixDigits(n: nat, k: nat)
    requires k > 0
    ensures |Decimal(n)| <= k <==> n < Pow10(k)
  {
    if k > 1 {
      if n >= 10 {
        SixDigits(n / 10, k - 1);
      }
      PowerAtLeast(k);
    }
    assert Pow10(1) == 10 * Pow10(0);
    if k == 6 {
      assert Pow10(6) == 10 * Pow10(5) == 100 * Pow10(4) == 1000 * Pow10(3);
      assert Pow10(3) == 10 * Pow10(2) == 100 * Pow10(1);
    }
  }

  lemma {:induction false} PowerAtLeast(k: nat)
    requires k > 0
    ensures Pow10(k) >= 10
  {
    if k > 1 {
      PowerAtLeast(k - 1);
    }
  }

  /** The text writes the number as these digits, the last of which is not a trailing zero, times a power of ten. */
  ghost predicate Scientific(s: seq<byte>, call: nat, m: seq<byte>, e: nat) {
    && m != [] && (|m| > 1 ==> m[|m| - 1] != ZERO) && |m| <= e + 1
    && Decimal(call) == m + seq(e + 1 - |m|, i => ZERO)
    && s == m[..1] + (if |m| > 1 then [46] + m[1..] else []) + [101, 43] + (if e < 10 then [ZERO] else []) + Decimal(e)
  }

  lemma {:induction false} TrimZerosExactly(digits: seq<byte>)
    requires digits != []
    ensures var m := TrimZeros(digits);
      |m| <= |digits| && (|m| > 1 ==> m[|m| - 1] != ZERO) && digits == m + seq(|digits| - |m|, i => ZERO)
  {
    if |digits| > 1 && digits[|digits| - 1] == ZERO {
      var init := digits[..|digits| - 1];
      TrimZerosExactly(init);
      var k := |init| - |TrimZeros(init)|;
      assert digits == init + [ZERO];
      assert seq(k + 1, i => ZERO) == seq(k, i => ZERO) + [ZERO];
    }
  }

  lemma {:induction false} OneTrim(m: seq<byte>, k: nat)
    requires m != [] && (|m| > 1 ==> m[|m| - 1] != ZERO)
    ensures TrimZeros(m + seq(k, i => ZERO)) == m
  {
    var s := m + seq(k, i => ZERO);
    if k == 0 {
      assert s == m;
    } else {
      assert s[|s| - 1] == ZERO && s[..|s| - 1] == m + seq(k - 1, i => ZERO);
      OneTrim(m, k - 1);
    }
  }

  lemma FloatIsScientific(call: nat)
    requires |Decimal(call)| > 6
    ensures Scientific(FloatText(call), call, TrimZeros(Decimal(call)), |Decimal(call)| - 1)
  {
    TrimZerosExactly(Decimal(call));
    ExponentWidth(|Decimal(call)| - 1);
  }

  lemma ExponentWidth(e: nat)
    ensures |Decimal(e)| < 2 <==> e < 10
  {
    SixDigits(e, 1);
    assert Pow10(1) == 10 * Pow10(0);
  }

  lemma ScientificIsFloat(s: seq<byte>, call: nat, m: seq<byte>, e: nat)
    requires |Decimal(call)| > 6 && Scientific(s, call, m, e)
    ensures s == FloatText(call)
  {
    OneTrim(m, e + 1 - |m|);
    ExponentWidth(e);
    assert e == |Decimal(call)| - 1;
  }

  lemma ScientificExactly(s: seq<byte>, call: nat)
    requires |Decimal(call)| > 6
    ensures s == FloatText(call) <==> exists m, e :: Scientific(s, call, m, e)
  {
    FloatIsScientific(call);
    if m: seq<byte>, e: nat :| Scientific(s, call, m, e) {
      ScientificIsFloat(s, call, m, e);
    }
  }

  // ---------- One call ----------

  /** A handler refuses a message or not, given all the messages handlers have seen before it; no handler accepts
      all without seeing them. */
  type Handler = Option<(seq<Message>, Message) -> bool>

  predicate Refuses(h: Handler, seen: seq<Message>, m: Message) {
    h.Some? && h.value(seen, m)
  }

  /** What has been seen once these messages have been passed on as well. */
  function Noted(h: Handler, seen: seq<Message>, ms: seq<Message>): seq<Message> {
    if h.Some? then seen + ms else seen
  }

  /** The peer's requests, and only they, are answered: method not found. */
  function ReplyTo(m: Message): seq<Sent> {
    if m.method_ == "" || m.id.NoId? then [] else [Refusal(m.id, METHOD_NOT_FOUND, m.method_)]
  }

  datatype CallResult = Returned(result: string) | PeerError(error: RpcError) | HandlerError | EndOfStream

  function ResultOf(m: Message): CallResult {
    if m.error.Some? then PeerError(m.error.value) else Returned(m.result)
  }

  datatype State = State(nextID: nat, inbox: seq<Message>, sent: seq<Sent>, handled: seq<Message>)

  datatype Called = Called(state: State, result: CallResult)

  /** The receive loop of the call with this id. */
  function Loop(s: State, id: nat, h: Handler): Called
    decreases |s.inbox|
  {
    if s.inbox == [] then Called(s, EndOfStream)
    else
      var m, rest := s.inbox[0], s.(inbox := s.inbox[1..]);
      if SameId(m.id, id) then Called(rest, ResultOf(m))
      else
        var seen := rest.(handled := Noted(h, rest.handled, [m]));
        if Refuses(h, s.handled, m) then Called(seen, HandlerError)
        else Loop(seen.(sent := seen.sent + ReplyTo(m)), id, h)
  }

  function Call(s: State, method_: string, h: Handler): Called {
    var id := s.nextID + 1;
    Loop(s.(nextID := id, sent := s.sent + [Request(id, method_)]), id, h)
  }

  class Process {
    var nextID: nat
    var inbox: seq<Message>
    var sent: seq<Sent>
    var handled: seq<Message>

    ghost function Contents(): State
      reads this
    {
      State(nextID, inbox, sent, handled)
    }

    constructor (inbox: seq<Message>)
      ensures Contents() == State(0, inbox, [], [])
    {
      nextID, this.inbox, sent, handled := 0, inbox, [], [];
    }

    /** handlePeerMessage: the handler first, then the refusal of a peer's request. */
    method HandlePeerMessage(m: Message, h: Handler) returns (ok: bool)
      modifies `sent, `handled
      ensures ok == !Refuses(h, old(handled), m)
      ensures handled == Noted(h, old(handled), [m])
      ensures sent == if ok then old(sent) + ReplyTo(m) else old(sent)
    {
      if h.Some? {
        var refused := h.value(handled, m);
        handled := handled + [m];
        if refused {
          return false;
        }
      }
      if m.method_ == "" || m.id.NoId? {
        return true;
      }
      sent := sent + [Refusal(m.id, METHOD_NOT_FOUND, m.method_)];
      ok := true;
    }

    method CallWithHandler(method_: string, h: Handler) returns (result: CallResult)
      modifies this
      ensures Called(Contents(), result) == Call(old(Contents()), method_, h)
    {
      nextID := nextID + 1;
      var id := nextID;
      sent := sent + [Request(id, method_)];
      while inbox != []
        invariant Call(old(Contents()), method_, h) == Loop(Contents(), id, h)
        decreases |inbox|
      {
        var message := inbox[0];
        inbox := inbox[1..];
        if SameId(message.id, id) {
          return ResultOf(message);
        }
        var ok := HandlePeerMessage(message, h);
        if !ok {
          return HandlerError;
        }
      }
      result := EndOfStream;
    }
  }

  // ---------- What one call does, all at once ----------

  /** How many messages the loop passes on before it stops. */
  function PassedOn(inbox: seq<Message>, call: nat, h: Handler, seen: seq<Message>): (k: nat)
    ensures k <= |inbox|
  {
    if inbox == [] || SameId(inbox[0].id, call) || Refuses(h, seen, inbox[0]) then 0
    else 1 + PassedOn(inbox[1..], call, h, Noted(h, seen, [inbox[0]]))
  }

  /** It stops at the first message with the call's id or refused by the handler, and at no other. */
  lemma {:induction false} PassedOnStops(inbox: seq<Message>, call: nat, h: Handler, seen: seq<Message>)
    ensures var k := PassedOn(inbox, call, h, seen);
      && (forall i | 0 <= i < k :: !SameId(inbox[i].id, call) && !Refuses(h, Noted(h, seen, inbox[..i]), inbox[i]))
      && (k < |inbox| ==> SameId(inbox[k].id, call) || Refuses(h, Noted(h, seen, inbox[..k]), inbox[k]))
  {
    assert seen + inbox[..0] == seen;
    var k := PassedOn(inbox, call, h, seen);
    if k > 0 {
      var rest, now := inbox[1..], Noted(h, seen, [inbox[0]]);
      PassedOnStops(rest, call, h, now);
      forall i | 0 < i <= k ensures Noted(h, seen, inbox[..i]) == Noted(h, now, rest[..i - 1]) {
        PrefixSplits(seen, inbox, i);
      }
    }
  }

  /** The first message with the call's id, or the first the handler refuses, ends the call; the messages
      after it stay for later calls. */
  lemma {:induction false} LoopEnds(s: State, id: nat, h: Handler)
    ensures var k, called := PassedOn(s.inbox, id, h, s.handled), Loop(s, id, h);
            && called.state.nextID == s.nextID
            && called.state.inbox == (if k == |s.inbox| then [] else s.inbox[k + 1..])
            && called.result == if k == |s.inbox| then EndOfStream
                                else if SameId(s.inbox[k].id, id) then ResultOf(s.inbox[k]) else HandlerError
    decreases |s.inbox|
  {
    if PassedOn(s.inbox, id, h, s.handled) > 0 {
      LoopPasses(s, id, h);
      LoopEnds(Passing(s, h), id, h);
    }
  }

  /** A message passed on leaves the rest of the loop to do. */
  lemma LoopPasses(s: State, id: nat, h: Handler)
    requires PassedOn(s.inbox, id, h, s.handled) > 0
    ensures Loop(s, id, h) == Loop(Passing(s, h), id, h)
    ensures PassedOn(s.inbox, id, h, s.handled) == 1 + PassedOn(Passing(s, h).inbox, id, h, Passing(s, h).handled)
  {
  }

  /** The state after one message has been passed on. */
  function Passing(s: State, h: Handler): State
    requires s.inbox != []
  {
    var m := s.inbox[0];
    State(s.nextID, s.inbox[1..], s.sent + ReplyTo(m), Noted(h, s.handled, [m]))
  }

  /** Every peer request among the passed messages is refused exactly once, in order; nothing else is written. */
  lemma {:induction false} LoopSent(s: State, id: nat, h: Handler)
    ensures Loop(s, id, h).state.sent
      == s.sent + FlatMap(s.inbox[..PassedOn(s.inbox, id, h, s.handled)], ReplyTo)
    decreases |s.inbox|
  {
    var k := PassedOn(s.inbox, id, h, s.handled);
    if k == 0 {
      assert s.inbox[..0] == [] && s.sent + [] == s.sent;
    } else {
      var m, later := s.inbox[0], s.inbox[1..][..k - 1];
      LoopSent(Passing(s, h), id, h);
      assert s.inbox[..k] == [m] + later;
      FlatMapPrepend(m, later);
      Assoc(s.sent, ReplyTo(m), FlatMap(later, ReplyTo));
    }
  }

  /** The handler sees each message before the one that ends the call exactly once, in order, and that one
      too when it is its own refusal that ends the call. */
  function Seen(inbox: seq<Message>, id: nat, h: Handler, seen: seq<Message>): (n: nat)
    ensures n <= |inbox|
  {
    var k := PassedOn(inbox, id, h, seen);
    if k < |inbox| && !SameId(inbox[k].id, id) then k + 1 else k
  }

  lemma {:induction false} LoopHandled(s: State, id: nat, h: Handler)
    ensures Loop(s, id, h).state.handled == Noted(h, s.handled, s.inbox[..Seen(s.inbox, id, h, s.handled)])
    decreases |s.inbox|
  {
    if PassedOn(s.inbox, id, h, s.handled) == 0 {
      LoopStopsAtOnce(s, id, h);
    } else {
      LoopHandled(Passing(s, h), id, h);
      PrefixSplits(s.handled, s.inbox, Seen(s.inbox, id, h, s.handled));
    }
  }

  lemma LoopStopsAtOnce(s: State, id: nat, h: Handler)
    requires PassedOn(s.inbox, id, h, s.handled) == 0
    ensures Loop(s, id, h).state.handled == Noted(h, s.handled, s.inbox[..Seen(s.inbox, id, h, s.handled)])
  {
    var n := Seen(s.inbox, id, h, s.handled);
    if n == 0 {
      assert s.handled + s.inbox[..0] == s.handled;
    } else {
      assert s.inbox[..1] == [s.inbox[0]];
    }
  }

  lemma PrefixSplits<T>(done: seq<T>, s: seq<T>, n: nat)
    requires 0 < n <= |s|
    ensures done + s[..n] == (done + [s[0]]) + s[1..][..n - 1]
  {
  }

  lemma FlatMapPrepend(m: Message, later: seq<Message>)
    ensures FlatMap([m] + later, ReplyTo) == ReplyTo(m) + FlatMap(later, ReplyTo)
  {
    assert ([m] + later)[1..] == later;
  }

  /** The requests among the peer's messages: those with a method and an id. */
  function Requests(ms: seq<Message>): seq<Message> {
    if ms == [] then []
    else (if ms[0].method_ != "" && ms[0].id != NoId then [ms[0]] else []) + Requests(ms[1..])
  }

  /** What a call writes: its own request under the next id, and then for each request of the peer it passed on, in
      order, one refusal with that request's id: method not found. */
  lemma CallWrites(s: State, method_: string, h: Handler)
    ensures var id := s.nextID + 1;
      var passed := s.inbox[..PassedOn(s.inbox, id, h, s.handled)];
      var asked, written := Requests(passed), Call(s, method_, h).state.sent;
      && |written| == |s.sent| + 1 + |asked| && s.sent <= written
      && written[|s.sent|] == Sent.Request(id, method_)
      && (h.None? ==> Call(s, method_, h).state.handled == s.handled)
      && forall j | 0 <= j < |asked| :: written[|s.sent| + 1 + j] == Refusal(asked[j].id, -32601, asked[j].method_)
  {
    CallLeaves(s, method_, h);
    RefusalsAre(s.inbox[..PassedOn(s.inbox, s.nextID + 1, h, s.handled)]);
  }

  lemma {:induction false} RefusalsAre(ms: seq<Message>)
    ensures |FlatMap(ms, ReplyTo)| == |Requests(ms)|
    ensures forall j | 0 <= j < |Requests(ms)| ::
      FlatMap(ms, ReplyTo)[j] == Refusal(Requests(ms)[j].id, -32601, Requests(ms)[j].method_)
  {
    if ms != [] {
      RefusalsAre(ms[1..]);
    }
  }

  // ---------- Many calls on one process ----------

  function Calls(s: State, methods: seq<string>, h: Handler): (r: seq<Called>)
    ensures |r| == |methods|
    decreases |methods|
  {
    if methods == [] then []
    else
      var first := Call(s, methods[0], h);
      [first] + Calls(first.state, methods[1..], h)
  }

  /** What the first call leaves for the others. */
  lemma CallLeaves(s: State, method_: string, h: Handler)
    ensures var id := s.nextID + 1;
            var k, called := PassedOn(s.inbox, id, h, s.handled), Call(s, method_, h);
            && called.state.nextID == id
            && called.state.inbox == (if k == |s.inbox| then [] else s.inbox[k + 1..])
            && called.state.handled == Noted(h, s.handled, s.inbox[..Seen(s.inbox, id, h, s.handled)])
            && called.state.sent == s.sent + [Request(id, method_)] + FlatMap(s.inbox[..k], ReplyTo)
            && called.result == if k == |s.inbox| then EndOfStream
                                else if SameId(s.inbox[k].id, id) then ResultOf(s.inbox[k]) else HandlerError
  {
    var id := s.nextID + 1;
    var start := s.(nextID := id, sent := s.sent + [Request(id, method_)]);
    LoopEnds(start, id, h);
    LoopHandled(start, id, h);
    LoopSent(start, id, h);
  }

  /** Each call has the next id: strictly larger than every one before it. */
  lemma {:induction false} CallIds(s: State, methods: seq<string>, h: Handler, i: nat)
    requires i < |methods|
    ensures Calls(s, methods, h)[i].state.nextID == s.nextID + i + 1
    decreases |methods|
  {
    CallLeaves(s, methods[0], h);
    if i > 0 {
      CallIds(Call(s, methods[0], h).state, methods[1..], h, i - 1);
    }
  }

  /** What the call with this id leaves in the inbox. */
  function LeftBy(inbox: seq<Message>, id: nat, h: Handler, seen: seq<Message>): seq<Message> {
    var k := PassedOn(inbox, id, h, seen);
    if k == |inbox| then [] else inbox[k + 1..]
  }

  /** The messages of an inbox that a sequence of calls hands on rather than returns. */
  function HandedOn(inbox: seq<Message>, nextID: nat, calls: nat, h: Handler, seen: seq<Message>): seq<Message>
    decreases calls
  {
    if calls == 0 then []
    else
      var id := nextID + 1;
      var here := inbox[..Seen(inbox, id, h, seen)];
      here + HandedOn(LeftBy(inbox, id, h, seen), id, calls - 1, h, Noted(h, seen, here))
  }

  function Final(s: State, methods: seq<string>, h: Handler): State
    decreases |methods|
  {
    if methods == [] then s else Final(Call(s, methods[0], h).state, methods[1..], h)
  }

  lemma CallHandled(s: State, method_: string, h: Handler)
    requires h.Some?
    ensures var id, t := s.nextID + 1, Call(s, method_, h).state;
      && t.handled == s.handled + s.inbox[..Seen(s.inbox, id, h, s.handled)]
      && t.inbox == LeftBy(s.inbox, id, h, s.handled) && t.nextID == id
  {
    CallLeaves(s, method_, h);
  }

  lemma HandedOnFirst(seen: seq<Message>, inbox: seq<Message>, nextID: nat, calls: nat, h: Handler)
    requires calls > 0 && h.Some?
    ensures var id := nextID + 1;
      var now := seen + inbox[..Seen(inbox, id, h, seen)];
      seen + HandedOn(inbox, nextID, calls, h, seen)
      == now + HandedOn(LeftBy(inbox, id, h, seen), id, calls - 1, h, now)
  {
    var id := nextID + 1;
    var here := inbox[..Seen(inbox, id, h, seen)];
    Assoc(seen, here, HandedOn(LeftBy(inbox, id, h, seen), id, calls - 1, h, seen + here));
  }

  ghost predicate HandledAll(s: State, methods: seq<string>, h: Handler) {
    Final(s, methods, h).handled == s.handled + HandedOn(s.inbox, s.nextID, |methods|, h, s.handled)
  }

  lemma HandledNext(s: State, methods: seq<string>, h: Handler)
    requires h.Some? && methods != [] && HandledAll(Call(s, methods[0], h).state, methods[1..], h)
    ensures HandledAll(s, methods, h)
  {
    CallHandled(s, methods[0], h);
    HandedOnFirst(s.handled, s.inbox, s.nextID, |methods|, h);
  }

  /** Over any number of calls the handler has seen exactly the messages handed on, each once, in order. */
  lemma {:induction false} CallsHandled(s: State, methods: seq<string>, h: Handler)
    requires h.Some?
    ensures Final(s, methods, h).handled == s.handled + HandedOn(s.inbox, s.nextID, |methods|, h, s.handled)
    decreases |methods|
  {
    if methods == [] {
      assert s.handled + [] == s.handled;
    } else {
      CallsHandled(Call(s, methods[0], h).state, methods[1..], h);
      HandledNext(s, methods, h);
    }
  }

  /** A peer that answers each call in turn, after messages that are not answers to it. */
  datatype Turn = Turn(others: seq<Message>, answer: Message)

  function Script(turns: seq<Turn>): seq<Message> {
    if turns == [] then [] else turns[0].others + ([turns[0].answer] + Script(turns[1..]))
  }

  /** None of these messages carries the id, and the handler, seeing them one after another, refuses none. */
  ghost predicate Passable(others: seq<Message>, id: nat, h: Handler, seen: seq<Message>)
    decreases |others|
  {
    others == [] ||
    (&& !SameId(others[0].id, id) && !Refuses(h, seen, others[0])
     && Passable(others[1..], id, h, Noted(h, seen, [others[0]])))
  }

  ghost predicate Answers(turns: seq<Turn>, nextID: nat, h: Handler, seen: seq<Message>)
    decreases |turns|
  {
    turns == [] ||
    (&& SameId(turns[0].answer.id, nextID + 1)
     && Passable(turns[0].others, nextID + 1, h, seen)
     && Answers(turns[1..], nextID + 1, h, Noted(h, seen, turns[0].others)))
  }

  lemma {:induction false} PassedOnAll(
    others: seq<Message>, answer: Message, rest: seq<Message>, id: nat, h: Handler, seen: seq<Message>)
    requires SameId(answer.id, id) && Passable(others, id, h, seen)
    ensures PassedOn(others + ([answer] + rest), id, h, seen) == |others|
    decreases |others|
  {
    var inbox := others + ([answer] + rest);
    if others == [] {
      assert inbox[0] == answer;
    } else {
      PassedOnAll(others[1..], answer, rest, id, h, Noted(h, seen, [others[0]]));
      assert inbox[0] == others[0] && inbox[1..] == others[1..] + ([answer] + rest);
    }
  }

  lemma TurnAnswered(s: State, method_: string, h: Handler, turn: Turn, rest: seq<Message>)
    requires s.inbox == turn.others + ([turn.answer] + rest)
    requires SameId(turn.answer.id, s.nextID + 1) && Passable(turn.others, s.nextID + 1, h, s.handled)
    ensures var called := Call(s, method_, h);
      && called.result == ResultOf(turn.answer) && called.state.inbox == rest
      && called.state.nextID == s.nextID + 1 && called.state.handled == Noted(h, s.handled, turn.others)
  {
    PassedOnAll(turn.others, turn.answer, rest, s.nextID + 1, h, s.handled);
    CallLeaves(s, method_, h);
    var n := |turn.others|;
    assert s.inbox[n] == turn.answer && s.inbox[n + 1..] == rest && s.inbox[..n] == turn.others;
  }

  /** Such a peer gets each answer to the call it was meant for, whatever it interleaves: the error it carries, and
      otherwise its result. */
  lemma {:induction false} EachCallGetsItsAnswer(s: State, methods: seq<string>, h: Handler, turns: seq<Turn>, i: nat)
    requires i < |methods| == |turns| && s.inbox == Script(turns) && Answers(turns, s.nextID, h, s.handled)
    ensures var answer, result := turns[i].answer, Calls(s, methods, h)[i].result;
      && (answer.error.Some? ==> result == PeerError(answer.error.value))
      && (answer.error.None? ==> result == Returned(answer.result))
    decreases |methods|
  {
    TurnAnswered(s, methods[0], h, turns[0], Script(turns[1..]));
    if i > 0 {
      EachCallGetsItsAnswer(Call(s, methods[0], h).state, methods[1..], h, turns[1..], i - 1);
    }
  }
}
