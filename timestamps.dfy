/**
 * The timestamp codec of the routing-table API (`NHNCloudTime`): decoding tries
 * six layouts in a fixed order and keeps the first that parses, encoding always
 * writes `YYYY-MM-DD HH:MM:SS`, and the zero time stands for "unset".
 *
 * The six layouts are parsed the way Go's `time.Parse` reads them: the year is
 * four characters that start with a digit, the hour takes one or
 * two digits, a space in the layout matches a run of spaces, a layout without
 * a fraction still accepts `.ddd` (or `,ddd`) after the seconds, and the
 * date is checked against the length of its month.
 */
module Timestamps {
  import opened Wrappers

  /** A wall-clock reading in a zone `offset` seconds east of UTC. */
  datatype Time = Time(year: int, month: nat, day: nat, hour: nat, minute: nat, second: nat, nanos: nat, offset: int)

  /** Go's zero `time.Time`: January 1, year 1, 00:00:00 UTC. */
  const Zero: Time := Time(1, 1, 1, 0, 0, 0, 0, 0)

  // ---------------------------------------------------------------------------
  // Calendar
  // ---------------------------------------------------------------------------

  predicate IsLeap(year: int) {
    year % 4 == 0 && (year % 100 != 0 || year % 400 == 0)
  }

  function DaysIn(month: nat, year: int): nat {
    if month == 2 then (if IsLeap(year) then 29 else 28)
    else if month == 4 || month == 6 || month == 9 || month == 11 then 30
    else 31
  }

  /** The field ranges every time produced by `time.Parse` respects. */
  predicate ValidClock(t: Time) {
    1 <= t.month <= 12 && 1 <= t.day <= DaysIn(t.month, t.year) &&
    t.hour < 24 && t.minute < 60 && t.second < 60 && t.nanos < 1_000_000_000
  }

  /** Days from January 1 of year 1 to January 1 of `year` (proleptic Gregorian). */
  function DaysBeforeYear(year: int): int {
    var p := year - 1;
    365 * p + p / 4 - p / 100 + p / 400
  }

  function DaysBeforeMonth(month: nat, year: int): nat {
    if month <= 1 then 0 else DaysBeforeMonth(month - 1, year) + DaysIn(month - 1, year)
  }

  /** Seconds from the zero instant to the instant `t` denotes. */
  function SecondsSinceZero(t: Time): int {
    (DaysBeforeYear(t.year) + DaysBeforeMonth(t.month, t.year) + t.day - 1) * 86400
      + t.hour * 3600 + t.minute * 60 + t.second - t.offset
  }

  /** Go's `IsZero`: the instant, not the wall clock, is the zero instant. */
  predicate IsZero(t: Time) {
    SecondsSinceZero(t) == 0 && t.nanos == 0
  }

  /** The whole-second UTC reading of the same wall clock: what layout 1 can carry. */
  function WholeSeconds(t: Time): Time {
    Time(t.year, t.month, t.day, t.hour, t.minute, t.second, 0, 0)
  }

  // ---------------------------------------------------------------------------
  // Decimal digits
  // ---------------------------------------------------------------------------

  predicate IsDigit(c: char) { '0' <= c <= '9' }

  predicate AllDigits(s: string) {
    forall i :: 0 <= i < |s| ==> IsDigit(s[i])
  }

  function DigitValue(c: char): nat
    requires IsDigit(c)
  {
    c as int - '0' as int
  }

  function DigitChar(n: nat): (c: char)
    requires n < 10
    ensures IsDigit(c) && DigitValue(c) == n
  {
    ('0' as int + n) as char
  }

  function Value(s: string): nat
    requires AllDigits(s)
  {
    if s == [] then 0 else Value(s[..|s| - 1]) * 10 + DigitValue(s[|s| - 1])
  }

  function Pow10(n: nat): (r: nat)
    ensures r >= 1
  {
    if n == 0 then 1 else 10 * Pow10(n - 1)
  }

  lemma {:induction false} ValueBound(s: string)
    requires AllDigits(s)
    ensures Value(s) < Pow10(|s|)
  {
    if s != [] {
      ValueBound(s[..|s| - 1]);
    }
  }

  lemma {:induction false} Pow10Add(a: nat, b: nat)
    ensures Pow10(a) * Pow10(b) == Pow10(a + b)
  {
    if a > 0 {
      Pow10Add(a - 1, b);
      assert Pow10(a) * Pow10(b) == 10 * (Pow10(a - 1) * Pow10(b));
    }
  }

  /** Go's `atoi`: an optional sign, then nothing but digits. */
  function Atoi(s: string): (r: Option<int>)
    ensures r.Some? && |s| > 0 && IsDigit(s[0]) ==> r.value >= 0
    ensures r.Some? ==> r.value < Pow10(|s|)
    ensures r.Some? && |s| > 0 ==> r.value + Pow10(|s| - 1) > 0
  {
    if |s| > 0 && (s[0] == '+' || s[0] == '-') then
      if AllDigits(s[1..]) then
        ValueBound(s[1..]);
        var magnitude: int := Value(s[1..]);
        Some(if s[0] == '-' then -magnitude else magnitude)
      else None
    else if AllDigits(s) then
      ValueBound(s);
      Some(Value(s) as int)
    else None
  }

  /** The number of digits `s` starts with. */
  function LeadingDigits(s: string): (n: nat)
    ensures n <= |s| && AllDigits(s[..n]) && (n < |s| ==> !IsDigit(s[n]))
  {
    if s == [] || !IsDigit(s[0]) then 0
    else
      var k := LeadingDigits(s[1..]);
      assert s[..k + 1] == [s[0]] + s[1..][..k];
      k + 1
  }

  // ---------------------------------------------------------------------------
  // The six layouts and their parser
  // ---------------------------------------------------------------------------

  /** What may follow the seconds: a fraction read leniently, or exactly six digits. */
  datatype Fraction = Lenient | SixDigits

  /** What ends the layout: nothing, a literal `Z`, or RFC 3339's `Z` or `+hh:mm`. */
  datatype Zone = NoZone | LiteralZ | Rfc3339Offset

  datatype Layout = Layout(separator: char, fraction: Fraction, zone: Zone)

  /** The layouts in the order they are tried. */
  const Layouts: seq<Layout> := [
    Layout(' ', Lenient, NoZone),         // 2006-01-02 15:04:05
    Layout('T', Lenient, NoZone),         // 2006-01-02T15:04:05
    Layout('T', Lenient, LiteralZ),       // 2006-01-02T15:04:05Z
    Layout('T', Lenient, Rfc3339Offset),  // 2006-01-02T15:04:05Z07:00 (section 5.6 of RFC 3339)
    Layout(' ', SixDigits, NoZone),       // 2006-01-02 15:04:05.000000
    Layout('T', SixDigits, LiteralZ)      // 2006-01-02T15:04:05.000000Z
  ]

  /** Four characters starting with a digit, read by `atoi`: a sign is refused, and so is `+024`. */
  function ParseYear(s: string): (r: Option<(int, string)>)
    ensures r.Some? ==> 0 <= r.value.0 <= 9999
  {
    assert Pow10(3) == 1000 && Pow10(4) == 10000;
    if |s| < 4 || !IsDigit(s[0]) then None
    else
      var year :- Atoi(s[..4]);
      Some((year, s[4..]))
  }

  function TwoDigits(s: string): (r: Option<(nat, string)>)
    ensures r.Some? ==> r.value.0 < 100
  {
    if |s| >= 2 && IsDigit(s[0]) && IsDigit(s[1]) then Some((DigitValue(s[0]) * 10 + DigitValue(s[1]), s[2..]))
    else None
  }

  function OneOrTwoDigits(s: string): (r: Option<(nat, string)>)
    ensures r.Some? ==> r.value.0 < 100
  {
    if |s| >= 1 && IsDigit(s[0]) then
      if |s| >= 2 && IsDigit(s[1]) then Some((DigitValue(s[0]) * 10 + DigitValue(s[1]), s[2..]))
      else Some((DigitValue(s[0]), s[1..]))
    else None
  }

  function DropSpaces(s: string): (r: string)
    ensures r == [] || r[0] != ' '
  {
    if |s| > 0 && s[0] == ' ' then DropSpaces(s[1..]) else s
  }

  /** A literal character of a layout; a space matches a run of spaces. */
  function Literal(c: char, s: string): Option<string> {
    if c == ' ' then (if |s| > 0 && s[0] != ' ' then None else Some(DropSpaces(s)))
    else if |s| > 0 && s[0] == c then Some(s[1..])
    else None
  }

  predicate IsFractionMark(c: char) { c == '.' || c == ',' }

  /** Nanoseconds from fraction digits: the first nine count, scaled to nine places. */
  function Nanoseconds(digits: string): (ns: nat)
    requires AllDigits(digits)
    ensures ns < 1_000_000_000
  {
    var k := if |digits| > 9 then 9 else |digits|;
    ValueBound(digits[..k]);
    Pow10Add(k, 9 - k);
    assert Pow10(9) == 1_000_000_000;
    MulLess(Value(digits[..k]), Pow10(k), Pow10(9 - k));
    Value(digits[..k]) * Pow10(9 - k)
  }

  lemma MulLess(a: nat, b: nat, c: nat)
    requires a < b && c > 0
    ensures a * c < b * c
  {
  }

  function ParseFraction(fraction: Fraction, s: string): (r: Option<(nat, string)>)
    ensures r.Some? ==> r.value.0 < 1_000_000_000
  {
    assert Pow10(6) == 1_000_000;
    match fraction
    case Lenient =>
      if |s| >= 2 && IsFractionMark(s[0]) && IsDigit(s[1]) then
        var n := 1 + LeadingDigits(s[1..]);
        assert s[1..n] == s[1..][..n - 1];
        Some((Nanoseconds(s[1..n]), s[n..]))
      else Some((0, s))
    case SixDigits =>
      if |s| < 7 || !IsFractionMark(s[0]) then None
      else
        var ns :- Atoi(s[1..7]);
        if ns < 0 then None else Some((ns * 1000, s[7..]))
  }

  function ParseZone(zone: Zone, s: string): Option<(int, string)> {
    match zone
    case NoZone => Some((0, s))
    case LiteralZ =>
      var rest :- Literal('Z', s);
      Some((0, rest))
    case Rfc3339Offset =>
      if |s| >= 1 && s[0] == 'Z' then Some((0, s[1..]))
      else if |s| < 6 || s[3] != ':' then None
      else
        var hh :- TwoDigits(s[1..3]);
        var mm :- TwoDigits(s[4..6]);
        if hh.0 > 24 || mm.0 > 60 || !(s[0] == '+' || s[0] == '-') then None
        else
          var east := (hh.0 * 60 + mm.0) * 60;
          Some((if s[0] == '-' then -east else east, s[6..]))
  }

  /** The date part `2006-01-02`: year, month (checked to be 1 to 12), day and the rest. */
  function ParseDate(s: string): (r: Option<(int, nat, nat, string)>)
    ensures r.Some? ==> 0 <= r.value.0 <= 9999 && 1 <= r.value.1 <= 12 && r.value.2 < 100
  {
    var year :- ParseYear(s);
    var r1 :- Literal('-', year.1);
    var month :- TwoDigits(r1);
    if !(1 <= month.0 <= 12) then None
    else
      var r2 :- Literal('-', month.1);
      var day :- TwoDigits(r2);
      Some((year.0, month.0, day.0, day.1))
  }

  /** The clock part `15:04:05` after the separator, each field checked against its range. */
  function ParseClock(separator: char, s: string): (r: Option<(nat, nat, nat, string)>)
    ensures r.Some? ==> r.value.0 < 24 && r.value.1 < 60 && r.value.2 < 60
  {
    var r3 :- Literal(separator, s);
    var hour :- OneOrTwoDigits(r3);
    if hour.0 >= 24 then None
    else
      var r4 :- Literal(':', hour.1);
      var minute :- TwoDigits(r4);
      if minute.0 >= 60 then None
      else
        var r5 :- Literal(':', minute.1);
        var second :- TwoDigits(r5);
        if second.0 >= 60 then None
        else Some((hour.0, minute.0, second.0, second.1))
  }

  /** `time.Parse(layout, s)`: the whole input must be consumed and the date must exist. */
  function ParseLayout(layout: Layout, s: string): Option<Time> {
    var date :- ParseDate(s);
    var clock :- ParseClock(layout.separator, date.3);
    var fraction :- ParseFraction(layout.fraction, clock.3);
    var zone :- ParseZone(layout.zone, fraction.1);
    if zone.1 != [] || !(1 <= date.2 <= DaysIn(date.1, date.0)) then None
    else Some(Time(date.0, date.1, date.2, clock.0, clock.1, clock.2, fraction.0, zone.0))
  }

  /** The result of the first layout that parses `s`. */
  function ParseFirst(layouts: seq<Layout>, s: string): Option<Time> {
    if layouts == [] then None
    else match ParseLayout(layouts[0], s)
      case Some(t) => Some(t)
      case None => ParseFirst(layouts[1..], s)
  }

  /** Trying the layouts from position `i` on: layout `i` if it parses, otherwise the ones after it. */
  lemma ParseFirstStep(layouts: seq<Layout>, i: nat, s: string)
    requires i < |layouts|
    ensures ParseFirst(layouts[i..], s) ==
      if ParseLayout(layouts[i], s).Some? then ParseLayout(layouts[i], s) else ParseFirst(layouts[i + 1..], s)
  {
    assert layouts[i..][1..] == layouts[i + 1..];
  }

  /** The search returns `t` exactly when some layout gives `t` and every earlier one fails. */
  lemma {:induction false} ParseFirstWins(layouts: seq<Layout>, s: string, t: Time)
    ensures ParseFirst(layouts, s) == Some(t) <==>
      exists i :: 0 <= i < |layouts| && ParseLayout(layouts[i], s) == Some(t) &&
        forall j :: 0 <= j < i ==> ParseLayout(layouts[j], s).None?
  {
    if layouts != [] {
      ParseFirstWins(layouts[1..], s, t);
      if ParseFirst(layouts, s) == Some(t) {
        if ParseLayout(layouts[0], s).None? {
          var i :| 0 <= i < |layouts[1..]| && ParseLayout(layouts[1..][i], s) == Some(t) &&
            forall j :: 0 <= j < i ==> ParseLayout(layouts[1..][j], s).None?;
          assert forall j :: 1 <= j < i + 1 ==> layouts[j] == layouts[1..][j - 1];
          assert ParseLayout(layouts[i + 1], s) == Some(t);
        } else {
          assert ParseLayout(layouts[0], s) == Some(t);
        }
      }
      if exists i :: 0 <= i < |layouts| && ParseLayout(layouts[i], s) == Some(t) &&
           forall j :: 0 <= j < i ==> ParseLayout(layouts[j], s).None? {
        var i :| 0 <= i < |layouts| && ParseLayout(layouts[i], s) == Some(t) &&
          forall j :: 0 <= j < i ==> ParseLayout(layouts[j], s).None?;
        if i > 0 {
          assert ParseLayout(layouts[0], s).None?;
          assert forall j :: 0 <= j < i - 1 ==> layouts[1..][j] == layouts[j + 1];
          assert ParseLayout(layouts[1..][i - 1], s) == Some(t);
        }
      }
    }
  }

  lemma {:induction false} ParseFirstFails(layouts: seq<Layout>, s: string)
    ensures ParseFirst(layouts, s).None? <==> forall i :: 0 <= i < |layouts| ==> ParseLayout(layouts[i], s).None?
  {
    if layouts != [] {
      ParseFirstFails(layouts[1..], s);
      assert forall i :: 1 <= i < |layouts| ==> layouts[i] == layouts[1..][i - 1];
    }
  }

  // ---------------------------------------------------------------------------
  // Decoding and encoding
  // ---------------------------------------------------------------------------

  function TrimLeftQuotes(s: string): (r: string)
    ensures |r| <= |s| && (r == [] || r[0] != '"')
    ensures r == s[|s| - |r|..]
  {
    if |s| > 0 && s[0] == '"' then TrimLeftQuotes(s[1..]) else s
  }

  function TrimRightQuotes(s: string): (r: string)
    ensures |r| <= |s| && (r == [] || r[|r| - 1] != '"')
    ensures r == s[..|r|]
  {
    if |s| > 0 && s[|s| - 1] == '"' then TrimRightQuotes(s[..|s| - 1]) else s
  }

  /** `strings.Trim(s, "\"")`: every quote at either end goes. */
  function TrimQuotes(s: string): (r: string)
    ensures |r| <= |s|
    ensures r == [] || (r[0] != '"' && r[|r| - 1] != '"')
  {
    TrimRightQuotes(TrimLeftQuotes(s))
  }

  /** The error names the text that matched no layout and the layout tried last. */
  datatype TimeError = Unparsable(text: string, lastLayout: Layout)

  /**
   * `UnmarshalJSON` on the raw JSON text `data`, as a function of the time held
   * before the call: `null` or nothing between the quotes leaves it as it was.
   */
  function UnmarshalTime(data: string, current: Time): (r: Result<Time, TimeError>)
    ensures var s := TrimQuotes(data); s == "null" || s == "" ==> r == Success(current)
    ensures r.Failure? <==> var s := TrimQuotes(data);
      s != "null" && s != "" && forall i :: 0 <= i < |Layouts| ==> ParseLayout(Layouts[i], s).None?
    ensures r.Failure? ==> r.error == Unparsable(TrimQuotes(data), Layouts[|Layouts| - 1])
    ensures r.Success? && TrimQuotes(data) != "null" && TrimQuotes(data) != "" ==>
      exists i :: 0 <= i < |Layouts| && ParseLayout(Layouts[i], TrimQuotes(data)) == Some(r.value)
  {
    var s := TrimQuotes(data);
    ParseFirstFails(Layouts, s);
    if s == "null" || s == "" then Success(current)
    else match ParseFirst(Layouts, s)
      case Some(t) =>
        ParseFirstWins(Layouts, s, t);
        Success(t)
      case None => Failure(Unparsable(s, Layouts[|Layouts| - 1]))
  }

  /** Go's `appendInt`: at least `width` digits, zero-padded on the left. */
  function Pad(n: nat, width: nat): string
    decreases n + width
  {
    if n < 10 && width <= 1 then [DigitChar(n)]
    else Pad(n / 10, if width == 0 then 0 else width - 1) + [DigitChar(n % 10)]
  }

  lemma {:induction false} PadDigits(n: nat, width: nat)
    ensures AllDigits(Pad(n, width)) && Value(Pad(n, width)) == n
    decreases n + width
  {
    if !(n < 10 && width <= 1) {
      var w := if width == 0 then 0 else width - 1;
      PadDigits(n / 10, w);
      var p := Pad(n / 10, w);
      assert Pad(n, width) == p + [DigitChar(n % 10)];
      assert (p + [DigitChar(n % 10)])[..|p|] == p;
    }
  }

  lemma {:induction false} PadLength(n: nat, width: nat)
    requires 1 <= width && n < Pow10(width)
    ensures |Pad(n, width)| == width
    decreases width
  {
    if !(n < 10 && width <= 1) {
      PadLength(n / 10, width - 1);
    }
  }

  function YearText(year: int): string {
    if year < 0 then "-" + Pad(-year, 4) else Pad(year, 4)
  }

  /**
   * `Format("2006-01-02 15:04:05")`, which is also what `String` returns: for
   * a calendar time with a four-digit year, nineteen characters of the form
   * `YYYY-MM-DD HH:MM:SS`.
   */
  function Format(t: Time): (r: string)
    ensures ValidClock(t) && 0 <= t.year <= 9999 ==>
      |r| == 19 && r[4] == '-' && r[7] == '-' && r[10] == ' ' && r[13] == ':' && r[16] == ':' &&
      forall i :: 0 <= i < 19 && i != 4 && i != 7 && i != 10 && i != 13 && i != 16 ==> IsDigit(r[i])
  {
    FormatPieces(t);
    YearText(t.year) + ("-" + (Pad(t.month, 2) + ("-" + (Pad(t.day, 2) +
      (" " + (Pad(t.hour, 2) + (":" + (Pad(t.minute, 2) + (":" + Pad(t.second, 2))))))))))
  }

  /** Every field is written in digits, and in its own width when it fits there. */
  lemma FormatPieces(t: Time)
    ensures AllDigits(Pad(t.month, 2)) && AllDigits(Pad(t.day, 2)) && AllDigits(Pad(t.hour, 2))
    ensures AllDigits(Pad(t.minute, 2)) && AllDigits(Pad(t.second, 2))
    ensures t.year >= 0 ==> AllDigits(Pad(t.year, 4))
    ensures ValidClock(t) && 0 <= t.year <= 9999 ==>
      |Pad(t.year, 4)| == 4 && |Pad(t.month, 2)| == 2 && |Pad(t.day, 2)| == 2 &&
      |Pad(t.hour, 2)| == 2 && |Pad(t.minute, 2)| == 2 && |Pad(t.second, 2)| == 2
  {
    PadDigits(t.month, 2);
    PadDigits(t.day, 2);
    PadDigits(t.hour, 2);
    PadDigits(t.minute, 2);
    PadDigits(t.second, 2);
    if t.year >= 0 {
      PadDigits(t.year, 4);
    }
    if ValidClock(t) && 0 <= t.year <= 9999 {
      assert Pow10(2) == 100 && Pow10(4) == 10000;
      PadLength(t.year, 4);
      PadLength(t.month, 2);
      PadLength(t.day, 2);
      PadLength(t.hour, 2);
      PadLength(t.minute, 2);
      PadLength(t.second, 2);
    }
  }

  /** `MarshalJSON`: the raw JSON text, `null` exactly for the zero time and otherwise the quoted format. */
  function MarshalTime(t: Time): (r: string)
    ensures r == "null" <==> IsZero(t)
    ensures !IsZero(t) ==> |r| == |Format(t)| + 2 && r[0] == '"' && r[|r| - 1] == '"' && r[1..|r| - 1] == Format(t)
  {
    if IsZero(t) then "null" else "\"" + Format(t) + "\""
  }

  /** The receiver of `UnmarshalJSON`: a time that decoding overwrites in place. */
  class CloudTime {
    var time: Time

    constructor ()
      ensures time == Zero
    {
      time := Zero;
    }

    method UnmarshalJSON(data: string) returns (err: Option<TimeError>)
      modifies this
      ensures UnmarshalTime(data, old(time)).Success? ==> err == None && time == UnmarshalTime(data, old(time)).value
      ensures UnmarshalTime(data, old(time)).Failure? ==> err == Some(UnmarshalTime(data, old(time)).error) && time == old(time)
    {
      var s := TrimQuotes(data);
      if s == "null" || s == "" {
        return None;
      }
      var lastTried := Layouts[0];
      var i := 0;
      while i < |Layouts|
        invariant 0 <= i <= |Layouts|
        invariant ParseFirst(Layouts[i..], s) == ParseFirst(Layouts, s)
        invariant i > 0 ==> lastTried == Layouts[i - 1]
        invariant time == old(time)
      {
        var parsed := ParseLayout(Layouts[i], s);
        ParseFirstStep(Layouts, i, s);
        if parsed.Some? {
          time := parsed.value;
          return None;
        }
        lastTried := Layouts[i];
        i := i + 1;
      }
      return Some(Unparsable(s, lastTried));
    }
  }
}
