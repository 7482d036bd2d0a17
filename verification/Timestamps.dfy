/** UTC instants as the index stores them: RFC 3339 text whose fraction carries no trailing zeros
    (internal/storage/repos/common.go). Years run from 0 to 9999. */
module Timestamps {
  import opened Wrappers
  import opened Bytes

  datatype DateTime = DateTime(year: nat, month: nat, day: nat, hour: nat, minute: nat, second: nat, nanos: nat) {
    predicate Valid() {
      year <= 9999 && 1 <= month <= 12 && 1 <= day <= DaysIn(year, month)
      && hour < 24 && minute < 60 && second < 60 && nanos < 1_000_000_000
    }
  }

  const ZERO_TIME := DateTime(1, 1, 1, 0, 0, 0, 0)

  type Time = t: DateTime | t.Valid() witness ZERO_TIME

  function DaysIn(year: nat, month: nat): nat {
    if month == 2 then (if year % 4 == 0 && (year % 100 != 0 || year % 400 == 0) then 29 else 28)
    else if month in {4, 6, 9, 11} then 30
    else 31
  }

  const DASH: byte := 45
  const DOT: byte := 46
  const LETTER_T: byte := 84
  const LETTER_Z: byte := 90

  // ---------- Numbers of fixed width ----------

  function Digits(n: nat, width: nat): (r: seq<byte>)
    ensures |r| == width
  {
    if width == 0 then [] else Digits(n / 10, width - 1) + [ZERO + n % 10]
  }

  lemma {:induction false} DigitsValue(n: nat, width: nat)
    requires n < Pow10(width)
    ensures AllDigits(Digits(n, width)) && DecimalValue(Digits(n, width)) == n
  {
    if width > 0 {
      DigitsValue(n / 10, width - 1);
      var r := Digits(n, width);
      assert r[..|r| - 1] == Digits(n / 10, width - 1);
    }
  }

  function Zeros(n: nat): seq<byte> {
    seq(n, i => ZERO)
  }

  function DropZeros(s: seq<byte>): seq<byte> {
    if s != [] && s[|s| - 1] == ZERO then DropZeros(s[..|s| - 1]) else s
  }

  lemma {:induction false} DroppedZeros(s: seq<byte>)
    ensures DropZeros(s) <= s && s == DropZeros(s) + Zeros(|s| - |DropZeros(s)|)
  {
    if s != [] && s[|s| - 1] == ZERO {
      var init := s[..|s| - 1];
      DroppedZeros(init);
      var n := |init| - |DropZeros(init)|;
      assert s == init + [ZERO];
      assert Zeros(n + 1) == Zeros(n) + [ZERO];
    }
  }

  lemma {:induction false} ZerosAreNothing(n: nat)
    ensures AllDigits(Zeros(n)) && DecimalValue(Zeros(n)) == 0
  {
    if n > 0 {
      ZerosAreNothing(n - 1);
      assert Zeros(n)[..n - 1] == Zeros(n - 1);
    }
  }

  // ---------- Text ----------

  function DateText(t: Time): seq<byte> {
    Digits(t.year, 4) + [DASH] + Digits(t.month, 2) + [DASH] + Digits(t.day, 2)
  }

  function ClockText(t: Time): seq<byte> {
    Digits(t.hour, 2) + [COLON] + Digits(t.minute, 2) + [COLON] + Digits(t.second, 2)
  }

  function FractionText(nanos: nat): seq<byte> {
    if nanos == 0 then [] else [DOT] + DropZeros(Digits(nanos, 9))
  }

  function Format(t: Time): seq<byte> {
    DateText(t) + [LETTER_T] + ClockText(t) + FractionText(t.nanos) + [LETTER_Z]
  }

  function Number(s: seq<byte>): Option<nat> {
    if s != [] && AllDigits(s) then Some(DecimalValue(s)) else None
  }

  /** Digits after the ninth are ignored. */
  function ParseFraction(s: seq<byte>): Option<nat> {
    if s == [] then Some(0)
    else if s[0] != DOT then None
    else
      var digits := s[1..];
      if Number(digits).None? then None
      else if |digits| >= 9 then Number(digits[..9])
      else Number(digits + Zeros(9 - |digits|))
  }

  function ParseDate(s: seq<byte>): Option<(nat, nat, nat)>
    requires |s| == 10
  {
    var y, m, d := Number(s[..4]), Number(s[5..7]), Number(s[8..]);
    if s[4] != DASH || s[7] != DASH || y.None? || m.None? || d.None? then None
    else Some((y.value, m.value, d.value))
  }

  function ParseClock(s: seq<byte>): Option<(nat, nat, nat)>
    requires |s| == 8
  {
    var h, m, sec := Number(s[..2]), Number(s[3..5]), Number(s[6..]);
    if s[2] != COLON || s[5] != COLON || h.None? || m.None? || sec.None? then None
    else Some((h.value, m.value, sec.value))
  }

  /** time.Parse of RFC 3339 text in UTC, written with Z. */
  function Parse(s: seq<byte>): Option<Time> {
    if |s| < 20 || s[10] != LETTER_T || s[|s| - 1] != LETTER_Z then None
    else
      var date, clock, nanos := ParseDate(s[..10]), ParseClock(s[11..19]), ParseFraction(s[19..|s| - 1]);
      if date.None? || clock.None? || nanos.None? then None
      else
        var t := DateTime(date.value.0, date.value.1, date.value.2,
                          clock.value.0, clock.value.1, clock.value.2, nanos.value);
        if t.Valid() then Some(t) else None
  }

  // ---------- Text reads back ----------

  lemma NumberOfDigits(n: nat, width: nat)
    requires n < Pow10(width) && width > 0
    ensures Number(Digits(n, width)) == Some(n)
  {
    DigitsValue(n, width);
  }

  lemma DateReads(t: Time)
    ensures |DateText(t)| == 10 && ParseDate(DateText(t)) == Some((t.year, t.month, t.day))
  {
    var s := DateText(t);
    assert Pow10(2) == 100 && Pow10(4) == 10000 by {
      assert Pow10(1) == 10 && Pow10(2) == 100 && Pow10(3) == 1000;
    }
    NumberOfDigits(t.year, 4);
    NumberOfDigits(t.month, 2);
    NumberOfDigits(t.day, 2);
    assert s[..4] == Digits(t.year, 4) && s[5..7] == Digits(t.month, 2) && s[8..] == Digits(t.day, 2);
  }

  lemma ClockReads(t: Time)
    ensures |ClockText(t)| == 8 && ParseClock(ClockText(t)) == Some((t.hour, t.minute, t.second))
  {
    var s := ClockText(t);
    assert Pow10(2) == 100 by {
      assert Pow10(1) == 10;
    }
    NumberOfDigits(t.hour, 2);
    NumberOfDigits(t.minute, 2);
    NumberOfDigits(t.second, 2);
    assert s[..2] == Digits(t.hour, 2) && s[3..5] == Digits(t.minute, 2) && s[6..] == Digits(t.second, 2);
  }

  lemma Billion()
    ensures Pow10(9) == 1_000_000_000
  {
    assert Pow10(3) == 1000 by {
      assert Pow10(1) == 10 && Pow10(2) == 100;
    }
    assert Pow10(6) == 1_000_000 by {
      assert Pow10(4) == 10_000 && Pow10(5) == 100_000;
    }
    assert Pow10(7) == 10_000_000 && Pow10(8) == 100_000_000;
  }

  lemma FractionReads(nanos: nat)
    requires nanos < 1_000_000_000
    ensures ParseFraction(FractionText(nanos)) == Some(nanos)
  {
    if nanos > 0 {
      Billion();
      var all := Digits(nanos, 9);
      var kept := DropZeros(all);
      DigitsValue(nanos, 9);
      DroppedZeros(all);
      if kept == [] {
        assert all == Zeros(9);
        ZerosAreNothing(9);
        assert false;
      }
      assert AllDigits(kept) by {
        forall b | b in kept ensures IsDigit(b) {
          assert b in all;
        }
      }
      assert ([DOT] + kept)[1..] == kept;
      assert |kept| == 9 ==> kept == all && kept[..9] == kept;
    }
  }

  /** RFC 3339, section 5.6: reading a printed instant gives it back. */
  lemma FormatReads(t: Time)
    ensures Parse(Format(t)) == Some(t)
  {
    DateReads(t);
    ClockReads(t);
    FractionReads(t.nanos);
    Pieces(DateText(t), ClockText(t), FractionText(t.nanos));
  }

  lemma Pieces(d: seq<byte>, c: seq<byte>, f: seq<byte>)
    requires |d| == 10 && |c| == 8
    ensures var s := d + [LETTER_T] + c + f + [LETTER_Z];
      |s| >= 20 && s[10] == LETTER_T && s[|s| - 1] == LETTER_Z
      && s[..10] == d && s[11..19] == c && s[19..|s| - 1] == f
  {
    var s := d + [LETTER_T] + c + f + [LETTER_Z];
    assert s == d + ([LETTER_T] + (c + (f + [LETTER_Z])));
  }

  lemma {:induction false} DigitsAreDigits(n: nat, width: nat)
    ensures AllDigits(Digits(n, width))
  {
    if width > 0 {
      DigitsAreDigits(n / 10, width - 1);
    }
  }

  /** The text holds no line feed. */
  lemma FormatIsOneLine(t: Time)
    ensures LF !in Format(t)
  {
    DigitsAreDigits(t.year, 4);
    DigitsAreDigits(t.month, 2);
    DigitsAreDigits(t.day, 2);
    DigitsAreDigits(t.hour, 2);
    DigitsAreDigits(t.minute, 2);
    DigitsAreDigits(t.second, 2);
    DigitsAreDigits(t.nanos, 9);
    DroppedZeros(Digits(t.nanos, 9));
    assert LF !in DateText(t) && LF !in ClockText(t);
    var all, kept := Digits(t.nanos, 9), DropZeros(Digits(t.nanos, 9));
    forall i | 0 <= i < |kept| ensures kept[i] != LF {
      assert kept[i] == all[i] && all[i] in all;
    }
  }

  // ---------- The calendar ----------

  function YearDays(year: nat, months: nat): nat {
    if months == 0 then 0 else YearDays(year, months - 1) + DaysIn(year, months)
  }

  /** A year has 365 days, and one more in every fourth year but those that full centuries not divisible by 400. */
  lemma YearExactly(year: nat)
    ensures YearDays(year, 12) == 365 + if year % 4 == 0 && (year % 100 != 0 || year % 400 == 0) then 1 else 0
    ensures DaysIn(year, 2) < 30 && forall m | 1 <= m <= 12 && m != 2 :: 30 <= DaysIn(year, m) <= 31
  {
    assert YearDays(year, 3) == YearDays(year, 2) + 31 == YearDays(year, 1) + DaysIn(year, 2) + 31;
    assert YearDays(year, 6) == YearDays(year, 5) + 30 == YearDays(year, 4) + 61 == YearDays(year, 3) + 91;
    assert YearDays(year, 9) == YearDays(year, 8) + 30 == YearDays(year, 7) + 61 == YearDays(year, 6) + 92;
    assert YearDays(year, 12) == YearDays(year, 11) + 31 == YearDays(year, 10) + 61 == YearDays(year, 9) + 92;
    assert YearDays(year, 1) == YearDays(year, 0) + 31;
  }

  /** A fraction is read to the nanosecond; digits after the ninth change nothing. */
  lemma LongFraction(digits: seq<byte>, more: seq<byte>)
    requires |digits| == 9 && AllDigits(digits) && AllDigits(more)
    ensures ParseFraction([DOT] + digits + more) == ParseFraction([DOT] + digits) == Some(DecimalValue(digits))
  {
    var short, long := [DOT] + digits, [DOT] + digits + more;
    assert short[1..] == digits && long[1..] == digits + more;
    assert (digits + more)[..9] == digits && digits[..9] == digits;
  }

  lemma {:induction false} DigitsOf(s: seq<byte>)
    requires AllDigits(s)
    ensures Digits(DecimalValue(s), |s|) == s
  {
    if s != [] {
      var init := s[..|s| - 1];
      DigitsOf(init);
      var d := s[|s| - 1] - ZERO;
      assert IsDigit(s[|s| - 1]);
      assert DecimalValue(s) == 10 * DecimalValue(init) + d;
      assert s == init + [s[|s| - 1]];
    }
  }

  /** Parse accepts only the text of a valid date and clock, up to the fraction. */
  lemma ParsedIsText(s: seq<byte>)
    requires Parse(s).Some?
    ensures var t := Parse(s).value;
      |s| >= 20 && s[..19] == DateText(t) + [LETTER_T] + ClockText(t) && s[|s| - 1] == LETTER_Z
      && ParseFraction(s[19..|s| - 1]) == Some(t.nanos)
  {
    var date, clock := s[..10], s[11..19];
    DigitsOf(date[..4]);
    DigitsOf(date[5..7]);
    DigitsOf(date[8..]);
    DigitsOf(clock[..2]);
    DigitsOf(clock[3..5]);
    DigitsOf(clock[6..]);
    assert date == date[..4] + [DASH] + date[5..7] + [DASH] + date[8..];
    assert clock == clock[..2] + [COLON] + clock[3..5] + [COLON] + clock[6..];
    assert s[..19] == date + [LETTER_T] + clock;
  }
}
