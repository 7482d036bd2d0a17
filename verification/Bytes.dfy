/** Byte strings: ASCII white space, trimming and decimal numbers. */
module Bytes {
  import opened Wrappers

  type byte = b: int | 0 <= b < 256

  const TAB: byte := 9
  const LF: byte := 10
  const CR: byte := 13
  const SPACE: byte := 32
  const COLON: byte := 58
  const ZERO: byte := 48

  /** ASCII white space, as unicode.IsSpace has it below 128. */
  predicate IsSpace(b: byte) {
    TAB <= b <= CR || b == SPACE
  }

  function TrimLeft(s: seq<byte>): seq<byte> {
    if s != [] && IsSpace(s[0]) then TrimLeft(s[1..]) else s
  }

  function TrimRight(s: seq<byte>): seq<byte> {
    if s != [] && IsSpace(s[|s| - 1]) then TrimRight(s[..|s| - 1]) else s
  }

  function TrimSpace(s: seq<byte>): seq<byte> {
    TrimRight(TrimLeft(s))
  }

  // ---------- Decimal numbers ----------

  predicate IsDigit(b: byte) {
    ZERO <= b <= ZERO + 9
  }

  predicate AllDigits(s: seq<byte>) {
    forall b | b in s :: IsDigit(b)
  }

  function Decimal(n: nat): (r: seq<byte>)
    ensures r != []
  {
    if n < 10 then [ZERO + n] else Decimal(n / 10) + [ZERO + n % 10]
  }

  function DecimalValue(s: seq<byte>): nat
    requires AllDigits(s)
  {
    if s == [] then 0
    else
      assert s[|s| - 1] in s;
      DecimalValue(s[..|s| - 1]) * 10 + (s[|s| - 1] - ZERO)
  }

  lemma {:induction false} DecimalRoundTrip(n: nat)
    ensures AllDigits(Decimal(n)) && DecimalValue(Decimal(n)) == n
  {
    if n >= 10 {
      DecimalRoundTrip(n / 10);
      var r := Decimal(n);
      assert r[..|r| - 1] == Decimal(n / 10);
    } else {
      assert DecimalValue([]) == 0;
      assert Decimal(n)[..0] == [];
    }
  }

  function Pow10(n: nat): nat {
    if n == 0 then 1 else 10 * Pow10(n - 1)
  }

  const INT_LIMIT := 0x8000_0000_0000_0000

  /** strconv.Atoi on a 64-bit int: an optional sign, at least one digit, no overflow. */
  function Atoi(s: seq<byte>): Option<int> {
    var negative := s != [] && s[0] == 45;
    var digits := if s != [] && (s[0] == 43 || s[0] == 45) then s[1..] else s;
    if digits == [] || !AllDigits(digits) then None
    else
      var n: int := DecimalValue(digits);
      if negative then (if n > INT_LIMIT then None else Some(-n))
      else if n >= INT_LIMIT then None
      else Some(n)
  }

  lemma AtoiDecimal(n: nat)
    requires n < INT_LIMIT
    ensures Atoi(Decimal(n)) == Some(n)
  {
    DecimalRoundTrip(n);
    assert Decimal(n)[0] in Decimal(n);
  }

  /** A plus sign changes nothing, a minus sign negates, and each sign has its own limit. */
  lemma AtoiSigned(n: nat)
    ensures Atoi(Decimal(n)) == if n < INT_LIMIT then Some(n) else None
    ensures Atoi([43] + Decimal(n)) == Atoi(Decimal(n))
    ensures if n <= INT_LIMIT then Atoi([45] + Decimal(n)).Some? && Atoi([45] + Decimal(n)).value + n == 0
            else Atoi([45] + Decimal(n)).None?
  {
    DecimalRoundTrip(n);
    assert Decimal(n)[0] in Decimal(n);
    AtoiOf(Decimal(n), n);
  }

  lemma AtoiOf(digits: seq<byte>, n: nat)
    requires digits != [] && AllDigits(digits) && DecimalValue(digits) == n && digits[0] !in {43, 45}
    ensures Atoi(digits) == if n < INT_LIMIT then Some(n) else None
    ensures Atoi([43] + digits) == Atoi(digits)
    ensures if n <= INT_LIMIT then Atoi([45] + digits).Some? && Atoi([45] + digits).value + n == 0
            else Atoi([45] + digits).None?
  {
    assert ([43] + digits)[1..] == digits && ([45] + digits)[1..] == digits;
  }

  // ---------- Trimming what has no white space at its ends ----------

  /** Empty, or printable ASCII at both ends. */
  predicate Trimmed(s: seq<byte>) {
    s == [] || (!IsSpace(s[0]) && s[0] < 128 && !IsSpace(s[|s| - 1]) && s[|s| - 1] < 128)
  }

  lemma TrimSpaceAround(before: seq<byte>, s: seq<byte>, after: seq<byte>)
    requires Trimmed(s) && s != []
    requires (forall b | b in before :: IsSpace(b)) && (forall b | b in after :: IsSpace(b))
    ensures TrimSpace(before + s + after) == s
  {
    TrimLeftDrops(before, s + after);
    assert before + s + after == before + (s + after);
    assert (s + after)[0] == s[0];
    TrimRightDrops(s, after);
  }

  lemma {:induction false} TrimLeftDrops(before: seq<byte>, s: seq<byte>)
    requires s != [] && !IsSpace(s[0]) && forall b | b in before :: IsSpace(b)
    ensures TrimLeft(before + s) == s
  {
    if before == [] {
      assert before + s == s;
    } else {
      assert (before + s)[1..] == before[1..] + s;
      TrimLeftDrops(before[1..], s);
    }
  }

  lemma {:induction false} TrimRightDrops(s: seq<byte>, after: seq<byte>)
    requires s != [] && !IsSpace(s[|s| - 1]) && forall b | b in after :: IsSpace(b)
    ensures TrimRight(s + after) == s
  {
    if after == [] {
      assert s + after == s;
    } else {
      var last := |after| - 1;
      assert (s + after)[..|s + after| - 1] == s + after[..last];
      TrimRightDrops(s, after[..last]);
    }
  }

  // ---------- Lines ----------

  function IndexOf(s: seq<byte>, b: byte): (n: nat)
    ensures n <= |s|
    ensures forall i | 0 <= i < n :: s[i] != b
    ensures n < |s| ==> s[n] == b
  {
    if s == [] || s[0] == b then 0 else 1 + IndexOf(s[1..], b)
  }

  /** How many bytes stand before the first line feed. */
  function LineLength(input: seq<byte>): (n: nat)
    ensures n <= |input|
    ensures forall i | 0 <= i < n :: input[i] != LF
    ensures n < |input| ==> input[n] == LF
  {
    IndexOf(input, LF)
  }

  lemma {:induction false} IndexOfFirst(s: seq<byte>, b: byte, rest: seq<byte>)
    requires b !in s
    ensures IndexOf(s + [b] + rest, b) == |s|
  {
    var t := s + [b] + rest;
    if s != [] {
      IndexOfFirst(s[1..], b, rest);
      assert t[1..] == s[1..] + [b] + rest;
    }
  }

  lemma LineLengthOf(line: seq<byte>, rest: seq<byte>)
    requires LF !in line
    ensures LineLength(line + [LF] + rest) == |line|
  {
    IndexOfFirst(line, LF, rest);
  }
}
