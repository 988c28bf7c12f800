/** The two pieces of the .NET runtime whose behaviour the chat flow depends on:
    `int.TryParse(string, out int)` (with `NumberStyles.Integer` and the
    invariant signs `+` and `-`) and `DateTime` with its custom format
    "yyyy-MM-dd HH:mm", written as a culture with the Gregorian calendar and
    the time separator ':' writes it. `DateTime.TryParse` and
    `DateTime.UtcNow` are culture- and clock-dependent and stay abstract: the
    flow receives them as inputs. */
module DotNet {
  import opened Wrappers

  // ---------------------------------------------------------------------------
  // Int32 and int.TryParse
  // ---------------------------------------------------------------------------

  const Int32Min: int := -0x8000_0000
  const Int32Max: int := 0x7FFF_FFFF

  predicate InInt32(n: int) { Int32Min <= n <= Int32Max }

  /** C#'s `int`. */
  type int32 = n: int | InInt32(n)

  /** The white space NumberStyles.AllowLeadingWhite/AllowTrailingWhite accept:
      U+0009 to U+000D and U+0020. */
  predicate IsWhite(c: char) { c == ' ' || '\t' <= c <= '\r' }

  /** Only the ASCII digits are accepted by Int32 parsing. */
  predicate IsDigit(c: char) { '0' <= c <= '9' }

  predicate AllDigits(s: string) { forall i :: 0 <= i < |s| ==> IsDigit(s[i]) }

  function DigitChar(d: nat): (c: char)
    requires d < 10
    ensures IsDigit(c)
  {
    ('0' as int + d) as char
  }

  function DigitValue(c: char): (d: nat)
    requires IsDigit(c)
    ensures d < 10
  {
    (c as int - '0' as int) as nat
  }

  /** Length of the longest prefix of white space. */
  function CountWhite(s: string): (k: nat)
    ensures k <= |s|
    ensures forall i :: 0 <= i < k ==> IsWhite(s[i])
    ensures k < |s| ==> !IsWhite(s[k])
  {
    if |s| > 0 && IsWhite(s[0]) then 1 + CountWhite(s[1..]) else 0
  }

  /** Length of the longest prefix of digits. */
  function CountDigits(s: string): (k: nat)
    ensures k <= |s| && AllDigits(s[..k])
    ensures k < |s| ==> !IsDigit(s[k])
  {
    if |s| > 0 && IsDigit(s[0]) then 1 + CountDigits(s[1..]) else 0
  }

  /** What .NET lets follow the digits: trailing white space, then only NUL
      characters. */
  predicate IsTrailer(s: string)
  {
    var w := CountWhite(s);
    forall i :: w <= i < |s| ==> s[i] == '\0'
  }

  /** The value of a string of decimal digits, most significant first. */
  function DigitsValue(s: string): nat
    requires AllDigits(s)
  {
    if s == [] then 0 else 10 * DigitsValue(s[..|s| - 1]) + DigitValue(s[|s| - 1])
  }

  /** `int.TryParse(s, out v)`: optional white space, an optional sign, one or
      more decimal digits, optional white space (then NULs); `None` when the
      text has another shape or the value does not fit in 32 bits. */
  function TryParseInt32(s: string): Option<int32>
  {
    ParseSigned(s[CountWhite(s)..])
  }

  /** The part of TryParseInt32 after the leading white space. */
  function ParseSigned(t: string): Option<int32>
  {
    var signed := |t| > 0 && (t[0] == '-' || t[0] == '+');
    var negative := signed && t[0] == '-';
    var body := if signed then t[1..] else t;
    var d := CountDigits(body);
    if d == 0 || !IsTrailer(body[d..]) then None
    else
      var m := DigitsValue(body[..d]);
      var v: int := if negative then -(m as int) else m;
      if InInt32(v) then Some(v) else None
  }

  /** The decimal digits of `n` without leading zeros (`n.ToString()`). */
  function Decimal(n: nat): string
  {
    if n < 10 then [DigitChar(n)] else Decimal(n / 10) + [DigitChar(n % 10)]
  }

  /** `n.ToString()` for a C# `int`, as the invariant culture writes it. */
  function Int32ToString(n: int32): string
  {
    if n < 0 then "-" + Decimal(-(n as int)) else Decimal(n)
  }

  lemma {:induction false} DecimalValue(n: nat)
    ensures |Decimal(n)| > 0 && AllDigits(Decimal(n))
    ensures DigitsValue(Decimal(n)) == n
  {
    if n >= 10 {
      var q, r := n / 10, n % 10;
      assert n == 10 * q + r;
      DecimalValue(q);
      var s := Decimal(n);
      assert s == Decimal(q) + [DigitChar(r)];
      assert s[..|s| - 1] == Decimal(q);
      assert DigitValue(s[|s| - 1]) == r;
    }
  }

  /** The digits of a decimal string are all consumed and nothing trails. */
  lemma DecimalParsesWhole(n: nat)
    ensures CountWhite(Decimal(n)) == 0
    ensures CountDigits(Decimal(n)) == |Decimal(n)|
    ensures DigitsValue(Decimal(n)) == n
  {
    DecimalValue(n);
    DigitsCounted(Decimal(n));
  }

  lemma {:induction false} DigitsCounted(s: string)
    requires AllDigits(s)
    ensures CountDigits(s) == |s|
  {
    if |s| > 0 { DigitsCounted(s[1..]); }
  }

  /** Parsing inverts printing: every C# `int` comes back from its decimal text. */
  lemma Int32RoundTrip(n: int32)
    ensures TryParseInt32(Int32ToString(n)) == Some(n)
  {
    var m: nat := if n < 0 then -(n as int) else n;
    DecimalParsesWhole(m);
    var s := Int32ToString(n);
    assert CountWhite(s) == 0;
    assert s[0..] == s;
    var body := if n < 0 then s[1..] else s;
    assert body == Decimal(m);
    assert body[..|body|] == body;
  }

  /** A value outside the 32-bit range is refused rather than wrapped. */
  lemma OverflowRefused(n: nat)
    requires n > Int32Max
    ensures TryParseInt32(Decimal(n)) == None
  {
    DecimalParsesWhole(n);
    var s := Decimal(n);
    assert s[0..] == s;
    assert s[..|s|] == s;
  }

  /** A negative value below the 32-bit range is refused as well. */
  lemma NegativeOverflowRefused(n: nat)
    requires n > -Int32Min
    ensures TryParseInt32("-" + Decimal(n)) == None
  {
    DecimalParsesWhole(n);
    var s := "-" + Decimal(n);
    assert s[0..] == s;
    assert s[1..] == Decimal(n);
    assert Decimal(n)[..|Decimal(n)|] == Decimal(n);
  }

  /** Text without a single digit never parses, so the flow stores 0 for it. */
  lemma NonNumericRefused(s: string)
    requires forall i :: 0 <= i < |s| ==> !IsDigit(s[i])
    ensures TryParseInt32(s) == None
  {
    var t := s[CountWhite(s)..];
    var body := if |t| > 0 && (t[0] == '-' || t[0] == '+') then t[1..] else t;
    assert |body| > 0 ==> body[0] == s[|s| - |body|];
  }

  /** Leading white space is skipped. */
  lemma LeadingWhiteIgnored(c: char, s: string)
    requires IsWhite(c)
    ensures TryParseInt32([c] + s) == TryParseInt32(s)
  {
    var u := [c] + s;
    assert u[1..] == s;
    assert CountWhite(u) == 1 + CountWhite(s);
    assert u[CountWhite(u)..] == s[CountWhite(s)..];
  }

  // ---------------------------------------------------------------------------
  // DateTime and ToString("yyyy-MM-dd HH:mm")
  // ---------------------------------------------------------------------------

  datatype Stamp = Stamp(year: int, month: int, day: int, hour: int, minute: int, second: int)

  predicate IsLeapYear(y: int) { y % 4 == 0 && (y % 100 != 0 || y % 400 == 0) }

  function DaysInMonth(y: int, m: int): int
    requires 1 <= m <= 12
  {
    if m == 2 then (if IsLeapYear(y) then 29 else 28)
    else if m == 4 || m == 6 || m == 9 || m == 11 then 30
    else 31
  }

  predicate ValidStamp(t: Stamp)
  {
    1 <= t.year <= 9999 && 1 <= t.month <= 12 && 1 <= t.day <= DaysInMonth(t.year, t.month)
    && 0 <= t.hour < 24 && 0 <= t.minute < 60 && 0 <= t.second < 60
  }

  /** A `System.DateTime`, to the second (sub-second ticks and `Kind` are not
      modelled: the only format the flow uses drops both). */
  type DateTime = t: Stamp | ValidStamp(t) witness Stamp(1, 1, 1, 0, 0, 0)

  /** `default(DateTime)`, i.e. `DateTime.MinValue`. */
  const MinValue: DateTime := Stamp(1, 1, 1, 0, 0, 0)

  function Pow10(w: nat): nat
  {
    if w == 0 then 1 else 10 * Pow10(w - 1)
  }

  /** `n` written in exactly `width` digits, zero-padded on the left. */
  function Pad(n: nat, width: nat): (s: string)
    ensures |s| == width && AllDigits(s)
  {
    if width == 0 then [] else Pad(n / 10, width - 1) + [DigitChar(n % 10)]
  }

  /** `dt.ToString("yyyy-MM-dd HH:mm")`. */
  function Format(dt: DateTime): (s: string)
    ensures |s| == 16 && s[4] == '-' && s[7] == '-' && s[10] == ' ' && s[13] == ':'
  {
    Pad(dt.year, 4) + "-" + Pad(dt.month, 2) + "-" + Pad(dt.day, 2) + " "
      + Pad(dt.hour, 2) + ":" + Pad(dt.minute, 2)
  }

  lemma {:induction false} PadValue(n: nat, width: nat)
    requires n < Pow10(width)
    ensures DigitsValue(Pad(n, width)) == n
  {
    if width > 0 {
      PadValue(n / 10, width - 1);
      var s := Pad(n, width);
      assert s[..|s| - 1] == Pad(n / 10, width - 1);
    }
  }

  /** The formatted text determines the date down to the minute, and nothing
      finer: two DateTimes format alike exactly when they agree on year, month,
      day, hour and minute. */
  lemma FormatUpToMinute(a: DateTime, b: DateTime)
    ensures Format(a) == Format(b) <==>
      (a.year, a.month, a.day, a.hour, a.minute) == (b.year, b.month, b.day, b.hour, b.minute)
  {
    if Format(a) == Format(b) {
      FormatFields(a);
      FormatFields(b);
    }
  }

  /** Each field can be read back from its place in the formatted text. */
  lemma FormatFields(dt: DateTime)
    ensures DigitsValue(Format(dt)[0..4]) == dt.year
    ensures DigitsValue(Format(dt)[5..7]) == dt.month
    ensures DigitsValue(Format(dt)[8..10]) == dt.day
    ensures DigitsValue(Format(dt)[11..13]) == dt.hour
    ensures DigitsValue(Format(dt)[14..16]) == dt.minute
  {
    var s := Format(dt);
    assert s[0..4] == Pad(dt.year, 4);
    assert s[5..7] == Pad(dt.month, 2);
    assert s[8..10] == Pad(dt.day, 2);
    assert s[11..13] == Pad(dt.hour, 2);
    assert s[14..16] == Pad(dt.minute, 2);
    PadValue(dt.year, 4);
    PadValue(dt.month, 2);
    PadValue(dt.day, 2);
    PadValue(dt.hour, 2);
    PadValue(dt.minute, 2);
  }
}
