/** RFC 4648 base64 as Go's encoding/base64 reads and writes it: section 4 with padding
    (StdEncoding) and section 5 without padding (RawURLEncoding). */
module Base64 {
  import opened Wrappers
  import opened Bytes

  type sextet = v: int | 0 <= v < 64

  /** An encoding is an alphabet (its last two characters vary) plus a padding rule. */
  datatype Encoding = StdEncoding | RawURLEncoding {
    predicate Padded() {
      StdEncoding?
    }
  }

  function Symbol(e: Encoding, v: sextet): char {
    if v < 26 then 'A' + v as char
    else if v < 52 then 'a' + (v - 26) as char
    else if v < 62 then '0' + (v - 52) as char
    else if v == 62 then (if e.StdEncoding? then '+' else '-')
    else (if e.StdEncoding? then '/' else '_')
  }

  function Value(e: Encoding, c: char): Option<sextet> {
    if 'A' <= c <= 'Z' then Some(c as int - 'A' as int)
    else if 'a' <= c <= 'z' then Some(c as int - 'a' as int + 26)
    else if '0' <= c <= '9' then Some(c as int - '0' as int + 52)
    else if c == (if e.StdEncoding? then '+' else '-') then Some(62)
    else if c == (if e.StdEncoding? then '/' else '_') then Some(63)
    else None
  }

  function Encode(e: Encoding, bs: seq<byte>): string {
    if |bs| == 0 then ""
    else
      var b0 := bs[0];
      var b1 := if |bs| > 1 then bs[1] else 0;
      var b2 := if |bs| > 2 then bs[2] else 0;
      var s0, s1 := Symbol(e, b0 / 4), Symbol(e, b0 % 4 * 16 + b1 / 16);
      var s2, s3 := Symbol(e, b1 % 16 * 4 + b2 / 64), Symbol(e, b2 % 64);
      if |bs| == 1 then [s0, s1] + (if e.Padded() then "==" else "")
      else if |bs| == 2 then [s0, s1, s2] + (if e.Padded() then "=" else "")
      else [s0, s1, s2, s3] + Encode(e, bs[3..])
  }

  /** The decoder skips carriage returns and line feeds wherever they stand. */
  function DropNewlines(s: string): string {
    if s == "" then ""
    else if s[0] == '\r' || s[0] == '\n' then DropNewlines(s[1..])
    else [s[0]] + DropNewlines(s[1..])
  }

  function Decode(e: Encoding, s: string): Option<seq<byte>> {
    DecodeQuanta(e, DropNewlines(s))
  }

  /** Trailing bits of a short last quantum are ignored, as Go does outside strict mode. */
  function DecodeQuanta(e: Encoding, s: string): Option<seq<byte>> {
    if s == "" then Some([])
    else if |s| == 1 then None
    else
      var v0, v1 := Value(e, s[0]), Value(e, s[1]);
      if v0.None? || v1.None? then None
      else
        var b0 := (v0.value * 4 + v1.value / 16) as byte;
        if e.Padded() && |s| < 4 then None
        else if e.Padded() && s[2] == '=' then
          if s[2..] == "==" then Some([b0]) else None
        else if !e.Padded() && |s| == 2 then Some([b0])
        else
          var v2 := Value(e, s[2]);
          if v2.None? then None
          else
            var b1 := (v1.value % 16 * 16 + v2.value / 4) as byte;
            if e.Padded() && s[3] == '=' then
              if |s| == 4 then Some([b0, b1]) else None
            else if !e.Padded() && |s| == 3 then Some([b0, b1])
            else
              var v3 := Value(e, s[3]);
              if v3.None? then None
              else
                var rest := DecodeQuanta(e, s[4..]);
                if rest.None? then None
                else Some([b0, b1, v2.value % 4 * 64 + v3.value] + rest.value)
  }

  lemma SymbolValue(e: Encoding, v: sextet)
    ensures Value(e, Symbol(e, v)) == Some(v)
    ensures Symbol(e, v) !in {'=', '\r', '\n'}
  {
  }

  lemma {:induction false} EncodeHasNoNewlines(e: Encoding, bs: seq<byte>)
    ensures DropNewlines(Encode(e, bs)) == Encode(e, bs)
  {
    if |bs| > 0 {
      forall v: sextet ensures Symbol(e, v) !in {'\r', '\n'} { SymbolValue(e, v); }
      if |bs| >= 3 {
        EncodeHasNoNewlines(e, bs[3..]);
        DropNewlinesAppend(Encode(e, bs)[..4], Encode(e, bs[3..]));
        assert Encode(e, bs) == Encode(e, bs)[..4] + Encode(e, bs[3..]);
        AlreadyClean(Encode(e, bs)[..4]);
      } else {
        AlreadyClean(Encode(e, bs));
      }
    }
  }

  lemma {:induction false} AlreadyClean(s: string)
    requires '\r' !in s && '\n' !in s
    ensures DropNewlines(s) == s
  {
    if s != "" {
      AlreadyClean(s[1..]);
    }
  }

  lemma {:induction false} DropNewlinesAppend(s: string, t: string)
    ensures DropNewlines(s + t) == DropNewlines(s) + DropNewlines(t)
  {
    if s == "" {
      assert s + t == t;
    } else {
      var u := s + t;
      DropNewlinesAppend(s[1..], t);
      assert u[0] == s[0] && u[1..] == s[1..] + t;
      var d, dt := DropNewlines(s[1..]), DropNewlines(t);
      if s[0] == '\r' || s[0] == '\n' {
        assert DropNewlines(u) == d + dt;
      } else {
        assert [s[0]] + (d + dt) == ([s[0]] + d) + dt;
      }
    }
  }

  /** RFC 4648, sections 4 and 5: decoding undoes encoding, for every byte string. */
  lemma {:induction false} RoundTrip(e: Encoding, bs: seq<byte>)
    ensures Decode(e, Encode(e, bs)) == Some(bs)
  {
    EncodeHasNoNewlines(e, bs);
    QuantaRoundTrip(e, bs);
  }

  /** Four symbols' values hold these three bytes, six bits each. */
  predicate Holds(v0: sextet, v1: sextet, v2: sextet, v3: sextet, b0: byte, b1: byte, b2: byte) {
    b0 == v0 * 4 + v1 / 16 && b1 == v1 % 16 * 16 + v2 / 4 && b2 == v2 % 4 * 64 + v3
  }

  /** The bit arithmetic of one full quantum. */
  lemma Regroup(b0: byte, b1: byte, b2: byte)
    ensures Holds(b0 / 4, b0 % 4 * 16 + b1 / 16, b1 % 16 * 4 + b2 / 64, b2 % 64, b0, b1, b2)
  {
    assert (b0 % 4 * 16 + b1 / 16) / 16 == b0 % 4;
    assert (b1 % 16 * 4 + b2 / 64) / 4 == b1 % 16;
  }

  /** A string that starts with four symbols decodes to the three bytes they hold and what the rest holds. */
  lemma {:induction false} QuantumRead(e: Encoding, s: string, v0: sextet, v1: sextet, v2: sextet, v3: sextet,
                                       bs: seq<byte>)
    requires |s| >= 4 && s[2] != '=' && s[3] != '='
    requires Value(e, s[0]) == Some(v0) && Value(e, s[1]) == Some(v1)
    requires Value(e, s[2]) == Some(v2) && Value(e, s[3]) == Some(v3)
    requires |bs| >= 3 && Holds(v0, v1, v2, v3, bs[0], bs[1], bs[2]) && DecodeQuanta(e, s[4..]) == Some(bs[3..])
    ensures DecodeQuanta(e, s) == Some(bs)
  {
    assert bs == [bs[0], bs[1], bs[2]] + bs[3..];
  }

  /** One full quantum in front of any tail decodes to its three bytes. */
  lemma FullQuantum(e: Encoding, s: string, v0: sextet, v1: sextet, v2: sextet, v3: sextet, tail: string,
                    bs: seq<byte>)
    requires s == [Symbol(e, v0), Symbol(e, v1), Symbol(e, v2), Symbol(e, v3)] + tail
    requires |bs| >= 3 && Holds(v0, v1, v2, v3, bs[0], bs[1], bs[2]) && DecodeQuanta(e, tail) == Some(bs[3..])
    ensures DecodeQuanta(e, s) == Some(bs)
  {
    SymbolValue(e, v0);
    SymbolValue(e, v1);
    SymbolValue(e, v2);
    SymbolValue(e, v3);
    assert s[4..] == tail;
    QuantumRead(e, s, v0, v1, v2, v3, bs);
  }

  lemma EncodeFirst(e: Encoding, bs: seq<byte>)
    requires |bs| >= 3
    ensures var b0, b1, b2 := bs[0], bs[1], bs[2];
      Encode(e, bs) == [Symbol(e, b0 / 4), Symbol(e, b0 % 4 * 16 + b1 / 16), Symbol(e, b1 % 16 * 4 + b2 / 64),
                        Symbol(e, b2 % 64)] + Encode(e, bs[3..])
  {
  }

  lemma {:induction false} QuantaRoundTrip(e: Encoding, bs: seq<byte>)
    ensures DecodeQuanta(e, Encode(e, bs)) == Some(bs)
  {
    if |bs| >= 3 {
      QuantaRoundTrip(e, bs[3..]);
      var b0, b1, b2 := bs[0], bs[1], bs[2];
      EncodeFirst(e, bs);
      Regroup(b0, b1, b2);
      FullQuantum(e, Encode(e, bs), b0 / 4, b0 % 4 * 16 + b1 / 16, b1 % 16 * 4 + b2 / 64, b2 % 64,
                  Encode(e, bs[3..]), bs);
    } else if |bs| == 1 {
      OneByteQuantum(e, bs[0]);
      assert bs == [bs[0]];
    } else if |bs| == 2 {
      TwoByteQuantum(e, bs[0], bs[1]);
      assert bs == [bs[0], bs[1]];
    }
  }

  lemma {:induction false} OneByteQuantum(e: Encoding, b: byte)
    ensures DecodeQuanta(e, Encode(e, [b])) == Some([b])
  {
    SymbolValue(e, b / 4);
    SymbolValue(e, b % 4 * 16);
    assert e.Padded() ==> Encode(e, [b])[2..] == "==";
  }

  lemma EncodeTwo(e: Encoding, b0: byte, b1: byte)
    ensures Encode(e, [b0, b1])
         == [Symbol(e, b0 / 4), Symbol(e, b0 % 4 * 16 + b1 / 16), Symbol(e, b1 % 16 * 4)]
            + if e.Padded() then "=" else ""
  {
  }

  lemma TwoByteQuantum(e: Encoding, b0: byte, b1: byte)
    ensures DecodeQuanta(e, Encode(e, [b0, b1])) == Some([b0, b1])
  {
    EncodeTwo(e, b0, b1);
    Regroup(b0, b1, 0);
    ThreeSymbolsRead(e, Encode(e, [b0, b1]), b0 / 4, b0 % 4 * 16 + b1 / 16, b1 % 16 * 4, b0, b1);
  }

  lemma ThreeSymbolsRead(e: Encoding, s: string, v0: sextet, v1: sextet, v2: sextet, b0: byte, b1: byte)
    requires s == [Symbol(e, v0), Symbol(e, v1), Symbol(e, v2)] + if e.Padded() then "=" else ""
    requires Holds(v0, v1, v2, 0, b0, b1, 0)
    ensures DecodeQuanta(e, s) == Some([b0, b1])
  {
    SymbolValue(e, v0);
    SymbolValue(e, v1);
    SymbolValue(e, v2);
    ThreeValuesRead(e, s, v0, v1, v2, b0, b1);
  }

  lemma {:induction false} ThreeValuesRead(e: Encoding, s: string, v0: sextet, v1: sextet, v2: sextet,
                                           b0: byte, b1: byte)
    requires |s| == (if e.Padded() then 4 else 3) && s[2] != '=' && (e.Padded() ==> s[3] == '=')
    requires Value(e, s[0]) == Some(v0) && Value(e, s[1]) == Some(v1) && Value(e, s[2]) == Some(v2)
    requires Holds(v0, v1, v2, 0, b0, b1, 0)
    ensures DecodeQuanta(e, s) == Some([b0, b1])
  {
  }
}
