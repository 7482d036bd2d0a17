/** What Recv does with input that is not a frame: which error, and what is left to read. */
module JsonRpcFailures {
  import opened Bytes
  import opened Seqs
  import opened Wrappers
  import opened JsonRpcCodec

  ghost predicate OtherFields(fs: seq<Field>) {
    forall f | f in fs :: OtherField(f)
  }

  /** The stream ends inside a body: the end of input, and nothing left. */
  lemma TornBody(before: seq<Field>, n: nat, after: seq<Field>, body: seq<byte>)
    requires OtherFields(before) && OtherFields(after) && |body| < n < INT_LIMIT
    ensures Recv(FieldLines(before) + (FieldLine(LengthField(n)) + (FieldLines(after) + (CRLF + body))))
      == Failed(EndOfInput, [])
  {
    var rest := FieldLines(after) + (CRLF + body);
    OtherFieldsSkipped(before, FieldLine(LengthField(n)) + rest, -1);
    LengthLineRead(n, rest, -1);
    OtherFieldsSkipped(after, CRLF + body, n);
    BlankEnds(body, n);
  }

  lemma BlankEnds(rest: seq<byte>, length: int)
    ensures RecvFrom(CRLF + rest, length) == Body(rest, length)
  {
    LineAtFront([], rest, length);
    assert [] + CRLF == CRLF;
    assert TrimEnd(CRLF) == [] by {
      assert CRLF[..1] == [CR] && [CR][..0] == [];
    }
  }

  /** The stream ends inside the header. */
  lemma TornHeader(before: seq<Field>, text: seq<byte>)
    requires OtherFields(before) && LF !in text
    ensures Recv(FieldLines(before) + text) == Failed(EndOfInput, [])
  {
    OtherFieldsSkipped(before, text, -1);
    NoLine(text);
  }

  lemma NoLine(text: seq<byte>)
    requires LF !in text
    ensures LineLength(text) == |text|
  {
  }

  /** A header without a length is an error once it ends; what follows it is left. */
  lemma NoLength(fields: seq<Field>, rest: seq<byte>)
    requires OtherFields(fields)
    ensures Recv(FieldLines(fields) + (CRLF + rest)) == Failed(MissingLength, rest)
  {
    OtherFieldsSkipped(fields, CRLF + rest, -1);
    BlankEnds(rest, -1);
  }

  /** A header line without a colon is an error; the lines after it are left. */
  lemma NoColon(before: seq<Field>, text: seq<byte>, rest: seq<byte>)
    requires OtherFields(before) && LF !in text && COLON !in text
    requires text != [] && text[|text| - 1] != CR
    ensures Recv(FieldLines(before) + ((text + CRLF) + rest)) == Failed(MalformedHeader, rest)
  {
    OtherFieldsSkipped(before, (text + CRLF) + rest, -1);
    assert text[|text| - 1] in text;
    TrimEndExact(text);
    LineAtFront(text, rest, -1);
    ColonAbsent(text);
  }

  lemma ColonAbsent(text: seq<byte>)
    requires COLON !in text
    ensures IndexOf(text, COLON) == |text|
  {
  }

  /** A length that is no number or is negative is an error. */
  lemma BadLength(before: seq<Field>, value: seq<byte>, rest: seq<byte>)
    requires OtherFields(before) && LF !in value && value != [] && value[|value| - 1] != CR
    requires Atoi(TrimSpace(value)) == None || Atoi(TrimSpace(value)).value < 0
    ensures Recv(FieldLines(before) + (FieldLine(Field(CONTENT_LENGTH_NAME, value)) + rest))
      == Failed(InvalidLength, rest)
  {
    var f := Field(CONTENT_LENGTH_NAME, value);
    OtherFieldsSkipped(before, FieldLine(f) + rest, -1);
    BadLine(value);
    LineAtFront(FieldText(f), rest, -1);
  }

  lemma BadLine(value: seq<byte>)
    requires LF !in value && value != [] && value[|value| - 1] != CR
    requires Atoi(TrimSpace(value)) == None || Atoi(TrimSpace(value)).value < 0
    ensures var text := FieldText(Field(CONTENT_LENGTH_NAME, value));
      LF !in text && TrimEnd(text + CRLF) == text && text != [] && HeaderLine(text, -1) == Err(InvalidLength)
  {
    var text := FieldText(Field(CONTENT_LENGTH_NAME, value));
    LengthName();
    assert value[|value| - 1] in value && text[|text| - 1] == value[|value| - 1];
    TrimEndExact(text);
    ColonSplits(CONTENT_LENGTH_NAME, value);
  }

  /** So a negative length is an error. */
  lemma NegativeLength(before: seq<Field>, n: nat, rest: seq<byte>)
    requires OtherFields(before) && n > 0
    ensures Recv(FieldLines(before) + (FieldLine(Field(CONTENT_LENGTH_NAME, [45] + Decimal(n))) + rest))
      == Failed(InvalidLength, rest)
  {
    DigitsUnspaced(n, [45]);
    AtoiSigned(n);
    BadLength(before, [45] + Decimal(n), rest);
  }

  /** And so is one beyond the largest int. */
  lemma HugeLength(before: seq<Field>, n: nat, rest: seq<byte>)
    requires OtherFields(before) && n >= INT_LIMIT
    ensures Recv(FieldLines(before) + (FieldLine(Field(CONTENT_LENGTH_NAME, Decimal(n))) + rest))
      == Failed(InvalidLength, rest)
  {
    DigitsUnspaced(n, []);
    assert [] + Decimal(n) == Decimal(n);
    AtoiSigned(n);
    BadLength(before, Decimal(n), rest);
  }

  lemma DigitsUnspaced(n: nat, sign: seq<byte>)
    requires sign == [] || sign == [45]
    ensures var s := sign + Decimal(n); s != [] && LF !in s && s[|s| - 1] != CR && TrimSpace(s) == s
  {
    var digits := Decimal(n);
    DecimalRoundTrip(n);
    assert digits[|digits| - 1] in digits && digits[0] in digits;
    Unspaced(sign + digits);
  }

  lemma Unspaced(s: seq<byte>)
    requires s != [] && Trimmed(s)
    ensures TrimSpace(s) == s
  {
    TrimSpaceAround([], s, []);
    assert [] + s + [] == s;
  }

  /** Of two lengths the last one counts. */
  lemma LastLengthCounts(n: nat, payload: seq<byte>, rest: seq<byte>)
    requires n < INT_LIMIT && |payload| < INT_LIMIT
    ensures Recv(FieldLine(LengthField(n)) + (FieldLine(LengthField(|payload|)) + (CRLF + (payload + rest))))
      == Frame(payload, rest)
  {
    LengthLineRead(n, FieldLine(LengthField(|payload|)) + (CRLF + (payload + rest)), -1);
    LengthLineRead(|payload|, CRLF + (payload + rest), n);
    BlankLine(payload, rest);
  }

  /** With line framing a last line that does not end is the end of input. */
  lemma TornLine(text: seq<byte>)
    requires LF !in text
    ensures RecvLine(text) == Failed(EndOfInput, [])
  {
    NoLine(text);
  }
}
