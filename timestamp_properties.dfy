/**
 * What the timestamp codec promises: the first layout that parses wins, every
 * parsed time is a real calendar time, `null` and the empty string are
 * "unset", and what `MarshalJSON` writes decodes back to the same
 * whole-second reading.
 */
module TimestampProperties {
  import opened Wrappers
  import opened Timestamps

  // ---------------------------------------------------------------------------
  // The first layout that parses wins
  // ---------------------------------------------------------------------------

  /**
   * Decoding: `null` or empty text between the quotes keeps the current time;
   * otherwise the first of the six layouts that parses gives the new time, and
   * when none does the error names the trimmed text.
   */
  lemma DecodeOutcome(data: string, current: Time)
    ensures var s := TrimQuotes(data);
      (s == "null" || s == "" ==> UnmarshalTime(data, current) == Success(current)) &&
      (s != "null" && s != "" ==>
        (UnmarshalTime(data, current).Success? <==> exists i :: 0 <= i < |Layouts| && ParseLayout(Layouts[i], s).Some?) &&
        (UnmarshalTime(data, current).Failure? ==> UnmarshalTime(data, current).error.text == s) &&
        (forall i :: (0 <= i < |Layouts| && ParseLayout(Layouts[i], s).Some? &&
                      forall j :: 0 <= j < i ==> ParseLayout(Layouts[j], s).None?) ==>
           UnmarshalTime(data, current) == Success(ParseLayout(Layouts[i], s).value)))
  {
    var s := TrimQuotes(data);
    if s != "null" && s != "" {
      DecodeSucceedsIffSomeLayout(data, current);
      forall i | 0 <= i < |Layouts| && ParseLayout(Layouts[i], s).Some? &&
          (forall j :: 0 <= j < i ==> ParseLayout(Layouts[j], s).None?)
        ensures UnmarshalTime(data, current) == Success(ParseLayout(Layouts[i], s).value)
      {
        DecodeTakesFirst(data, current, i);
      }
    }
  }

  lemma DecodeSucceedsIffSomeLayout(data: string, current: Time)
    requires TrimQuotes(data) != "null" && TrimQuotes(data) != ""
    ensures UnmarshalTime(data, current).Success? <==>
      exists i :: 0 <= i < |Layouts| && ParseLayout(Layouts[i], TrimQuotes(data)).Some?
  {
  }

  lemma DecodeTakesFirst(data: string, current: Time, i: int)
    requires TrimQuotes(data) != "null" && TrimQuotes(data) != ""
    requires 0 <= i < |Layouts| && ParseLayout(Layouts[i], TrimQuotes(data)).Some?
    requires forall j :: 0 <= j < i ==> ParseLayout(Layouts[j], TrimQuotes(data)).None?
    ensures UnmarshalTime(data, current) == Success(ParseLayout(Layouts[i], TrimQuotes(data)).value)
  {
    var s := TrimQuotes(data);
    ParseFirstWins(Layouts, s, ParseLayout(Layouts[i], s).value);
  }

  /** `null`, `""` and an empty input all mean "unset": the time is left as it was. */
  lemma UnsetInputs(data: string, current: Time)
    requires data == "null" || data == "\"null\"" || data == "\"\"" || data == ""
    ensures UnmarshalTime(data, current) == Success(current)
  {
    if data == "null" {
      TrimBareNull();
    } else if data == "\"null\"" {
      TrimQuotedNull();
    } else if data == "\"\"" {
      TrimQuotedEmpty();
    }
    UnsetWhenTrimmedAway(data, current);
  }

  lemma UnsetWhenTrimmedAway(data: string, current: Time)
    requires TrimQuotes(data) == "null" || TrimQuotes(data) == ""
    ensures UnmarshalTime(data, current) == Success(current)
  {
  }

  lemma TrimBareNull()
    ensures TrimQuotes("null") == "null"
  {
    TrimQuotesExact(0, "null", 0);
    assert Quotes(0) + "null" + Quotes(0) == "null";
  }

  lemma TrimQuotedNull()
    ensures TrimQuotes("\"null\"") == "null"
  {
    TrimQuotesExact(1, "null", 1);
    assert Quotes(1) + "null" + Quotes(1) == "\"null\"";
  }

  lemma TrimQuotedEmpty()
    ensures TrimQuotes("\"\"") == ""
  {
    TrimQuotesExact(1, "", 1);
    assert Quotes(1) + "" + Quotes(1) == "\"\"";
  }

  // ---------------------------------------------------------------------------
  // Every parsed time is a calendar time
  // ---------------------------------------------------------------------------

  lemma ParsedIsValid(layout: Layout, s: string)
    requires ParseLayout(layout, s).Some?
    ensures ValidClock(ParseLayout(layout, s).value)
    ensures 0 <= ParseLayout(layout, s).value.year <= 9999
    ensures layout.zone != Rfc3339Offset ==> ParseLayout(layout, s).value.offset == 0
    ensures -90000 <= ParseLayout(layout, s).value.offset <= 90000
  {
    var date := ParseDate(s).value;
    var clock := ParseClock(layout.separator, date.3).value;
    var fraction := ParseFraction(layout.fraction, clock.3).value;
    var zone := ParseZone(layout.zone, fraction.1).value;
    assert ParseLayout(layout, s).value == Time(date.0, date.1, date.2, clock.0, clock.1, clock.2, fraction.0, zone.0);
  }

  // ---------------------------------------------------------------------------
  // Quotes
  // ---------------------------------------------------------------------------

  function Quotes(n: nat): (q: string)
    ensures |q| == n && forall i :: 0 <= i < n ==> q[i] == '"'
  {
    seq(n, _ => '"')
  }

  lemma {:induction false} TrimLeftOfQuotes(n: nat, s: string)
    requires s == [] || s[0] != '"'
    ensures TrimLeftQuotes(Quotes(n) + s) == s
  {
    if n == 0 {
      assert Quotes(0) + s == s;
    } else {
      assert (Quotes(n) + s)[1..] == Quotes(n - 1) + s;
      TrimLeftOfQuotes(n - 1, s);
    }
  }

  lemma {:induction false} TrimRightOfQuotes(s: string, n: nat)
    requires s == [] || s[|s| - 1] != '"'
    ensures TrimRightQuotes(s + Quotes(n)) == s
  {
    if n == 0 {
      assert s + Quotes(0) == s;
    } else {
      assert (s + Quotes(n))[..|s| + n - 1] == s + Quotes(n - 1);
      TrimRightOfQuotes(s, n - 1);
    }
  }

  /** Trimming removes exactly the quotes around a text that neither starts nor ends with one. */
  lemma TrimQuotesExact(m: nat, body: string, n: nat)
    requires body == [] || (body[0] != '"' && body[|body| - 1] != '"')
    ensures TrimQuotes(Quotes(m) + body + Quotes(n)) == body
  {
    if body == [] {
      assert Quotes(m) + body + Quotes(n) == Quotes(m + n) + [];
      TrimLeftOfQuotes(m + n, []);
    } else {
      assert Quotes(m) + body + Quotes(n) == Quotes(m) + (body + Quotes(n));
      TrimLeftOfQuotes(m, body + Quotes(n));
      TrimRightOfQuotes(body, n);
    }
  }

  // ---------------------------------------------------------------------------
  // Formatting and layout 1
  // ---------------------------------------------------------------------------

  lemma TwoDigitsOfPad(n: nat, rest: string)
    requires n < 100
    ensures TwoDigits(Pad(n, 2) + rest) == Some((n, rest))
    ensures OneOrTwoDigits(Pad(n, 2) + rest) == Some((n, rest))
  {
    PadDigits(n, 2);
    PadLength(n, 2);
    var p := Pad(n, 2);
    assert p[..1][..0] == [];
    assert Value(p) == DigitValue(p[0]) * 10 + DigitValue(p[1]);
    assert (p + rest)[2..] == rest;
  }

  lemma YearOfPad(y: nat, rest: string)
    requires y < 10000
    ensures ParseYear(Pad(y, 4) + rest) == Some((y as int, rest))
  {
    PadDigits(y, 4);
    PadLength(y, 4);
    var p := Pad(y, 4);
    assert (p + rest)[..4] == p;
    assert (p + rest)[4..] == rest;
    assert IsDigit(p[0]);
  }

  lemma DateOfFormat(y: nat, month: nat, day: nat, rest: string)
    requires y < 10000 && 1 <= month <= 12 && day < 100
    ensures ParseDate(Pad(y, 4) + ("-" + (Pad(month, 2) + ("-" + (Pad(day, 2) + rest))))) ==
      Some((y as int, month, day, rest))
  {
    var d := Pad(day, 2) + rest;
    var dm := "-" + d;
    var m := Pad(month, 2) + dm;
    var ym := "-" + m;
    YearOfPad(y, ym);
    assert Literal('-', ym) == Some(m);
    TwoDigitsOfPad(month, dm);
    assert Literal('-', dm) == Some(d);
    TwoDigitsOfPad(day, rest);
  }

  lemma SpaceBeforePad(n: nat, rest: string)
    requires n < 100
    ensures Literal(' ', " " + (Pad(n, 2) + rest)) == Some(Pad(n, 2) + rest)
  {
    var p := Pad(n, 2) + rest;
    PadDigits(n, 2);
    PadLength(n, 2);
    assert IsDigit(p[0]);
    assert (" " + p)[1..] == p;
    assert DropSpaces(" " + p) == DropSpaces(p) == p;
  }

  lemma ClockOfFormat(hour: nat, minute: nat, second: nat)
    requires hour < 24 && minute < 60 && second < 60
    ensures ParseClock(' ', " " + (Pad(hour, 2) + (":" + (Pad(minute, 2) + (":" + Pad(second, 2)))))) ==
      Some((hour, minute, second, []))
  {
    var s6 := Pad(second, 2);
    var s4 := Pad(minute, 2) + (":" + s6);
    var s2 := Pad(hour, 2) + (":" + s4);
    SpaceBeforePad(hour, ":" + s4);
    TwoDigitsOfPad(hour, ":" + s4);
    TwoDigitsOfPad(minute, ":" + s6);
    TwoDigitsOfPad(second, []);
    assert s6 + [] == s6;
  }

  /** What `String` and `MarshalJSON` write is read back by layout 1, to the second. */
  lemma FormatParsesWithLayoutOne(t: Time)
    requires ValidClock(t) && 0 <= t.year <= 9999
    ensures ParseLayout(Layouts[0], Format(t)) == Some(WholeSeconds(t))
  {
    var clock := " " + (Pad(t.hour, 2) + (":" + (Pad(t.minute, 2) + (":" + Pad(t.second, 2)))));
    assert Format(t) == Pad(t.year, 4) + ("-" + (Pad(t.month, 2) + ("-" + (Pad(t.day, 2) + clock))));
    DateOfFormat(t.year, t.month, t.day, clock);
    ClockOfFormat(t.hour, t.minute, t.second);
  }

  /**
   * Encoding then decoding: the zero time comes back as "unset" (the time held
   * before is kept), any other time as its whole-second wall-clock reading.
   */
  lemma MarshalThenUnmarshal(t: Time, current: Time)
    requires ValidClock(t) && 0 <= t.year <= 9999
    ensures UnmarshalTime(MarshalTime(t), current) == Success(if IsZero(t) then current else WholeSeconds(t))
  {
    if !IsZero(t) {
      var f := Format(t);
      assert IsDigit(f[0]) && IsDigit(f[18]);
      TrimQuotesExact(1, f, 1);
      MarshalIsQuoted(t);
      FormatParsesWithLayoutOne(t);
      FirstLayoutDecodes(MarshalTime(t), current, WholeSeconds(t));
    }
  }

  /** The hour field sits at positions 11 and 12 of the format. */
  lemma HourOfFormat(t: Time)
    requires ValidClock(t) && 0 <= t.year <= 9999
    ensures Format(t)[11..13] == Pad(t.hour, 2)
  {
    var clock := Pad(t.hour, 2) + (":" + (Pad(t.minute, 2) + (":" + Pad(t.second, 2))));
    var date := Pad(t.year, 4) + ("-" + (Pad(t.month, 2) + ("-" + Pad(t.day, 2))));
    FormatPieces(t);
    assert Format(t) == (date + " ") + clock;
    assert |date + " "| == 11;
    assert clock[..2] == Pad(t.hour, 2);
  }

  /**
   * `String` and `MarshalJSON` write the wall clock of the zone the time was
   * parsed in: the same instant read in another zone is written differently.
   * Moving the clock one hour ahead together with the offset keeps the
   * instant and changes the text.
   */
  lemma SameInstantOtherText(t: Time)
    requires ValidClock(t) && 0 <= t.year <= 9999 && t.hour < 23
    ensures var u := t.(hour := t.hour + 1, offset := t.offset + 3600);
      SecondsSinceZero(u) == SecondsSinceZero(t) && Format(u) != Format(t)
  {
    var u := t.(hour := t.hour + 1, offset := t.offset + 3600);
    HourOfFormat(t);
    HourOfFormat(u);
    PadDigits(t.hour, 2);
    PadDigits(u.hour, 2);
  }

  /** A time that is not zero is written as its format between one pair of quotes. */
  lemma MarshalIsQuoted(t: Time)
    requires !IsZero(t)
    ensures MarshalTime(t) == Quotes(1) + Format(t) + Quotes(1)
  {
    assert Quotes(1) == "\"";
  }

  /** Text the first layout parses decodes to that time, whatever was held before. */
  lemma FirstLayoutDecodes(data: string, current: Time, t: Time)
    requires TrimQuotes(data) != "null" && TrimQuotes(data) != ""
    requires ParseLayout(Layouts[0], TrimQuotes(data)) == Some(t)
    ensures UnmarshalTime(data, current) == Success(t)
  {
  }

  // ---------------------------------------------------------------------------
  // The zero time
  // ---------------------------------------------------------------------------

  lemma DaysInBounds(month: nat, year: int)
    ensures 28 <= DaysIn(month, year) <= 31
  {
  }

  lemma MonthTable(year: int)
    ensures DaysBeforeMonth(1, year) == 0
    ensures DaysBeforeMonth(13, year) == 337 + DaysIn(2, year)
  {
    assert DaysBeforeMonth(2, year) == 31;
    assert DaysBeforeMonth(3, year) == 31 + DaysIn(2, year);
    assert DaysBeforeMonth(4, year) == 62 + DaysIn(2, year);
    assert DaysBeforeMonth(5, year) == 92 + DaysIn(2, year);
    assert DaysBeforeMonth(6, year) == 123 + DaysIn(2, year);
    assert DaysBeforeMonth(7, year) == 153 + DaysIn(2, year);
    assert DaysBeforeMonth(8, year) == 184 + DaysIn(2, year);
    assert DaysBeforeMonth(9, year) == 215 + DaysIn(2, year);
    assert DaysBeforeMonth(10, year) == 245 + DaysIn(2, year);
    assert DaysBeforeMonth(11, year) == 276 + DaysIn(2, year);
    assert DaysBeforeMonth(12, year) == 306 + DaysIn(2, year);
  }

  lemma {:induction false} DaysBeforeMonthGrows(m: nat, n: nat, year: int)
    requires 1 <= m <= n
    ensures DaysBeforeMonth(m, year) <= DaysBeforeMonth(n, year)
    ensures m < n ==> DaysBeforeMonth(m, year) + 28 <= DaysBeforeMonth(n, year)
    decreases n
  {
    if m < n {
      DaysBeforeMonthGrows(m, n - 1, year);
      DaysInBounds(n - 1, year);
    }
  }

  /** Days into the year of a valid date: from 0 to 365. */
  lemma DayOfYearBounds(t: Time)
    requires ValidClock(t)
    ensures 0 <= DaysBeforeMonth(t.month, t.year) + t.day - 1 <= 365
  {
    MonthTable(t.year);
    DaysBeforeMonthGrows(t.month + 1, 13, t.year);
    DaysInBounds(2, t.year);
  }

  lemma DaysBeforeYearSign(year: int)
    ensures year == 1 ==> DaysBeforeYear(year) == 0
    ensures year >= 2 ==> DaysBeforeYear(year) >= 365
    ensures year <= 0 ==> DaysBeforeYear(year) <= -366
  {
    var p := year - 1;
    if p >= 1 {
      assert p / 4 >= p / 100;
    } else if p <= -1 {
      assert p / 4 <= p / 100;
      assert p / 400 <= -1;
    }
  }

  /**
   * Among valid whole-second UTC readings only January 1 of year 1 at midnight
   * is the zero time, so only it is encoded as `null`.
   */
  lemma ZeroIsUnique(t: Time)
    requires ValidClock(t) && t.offset == 0
    ensures IsZero(t) <==> t == Zero
  {
    if IsZero(t) {
      DayOfYearBounds(t);
      DaysBeforeYearSign(t.year);
      var days := DaysBeforeYear(t.year) + DaysBeforeMonth(t.month, t.year) + t.day - 1;
      assert days * 86400 + t.hour * 3600 + t.minute * 60 + t.second == 0;
      assert days == 0;
      assert t.year == 1;
      if t.month > 1 {
        DaysBeforeMonthGrows(1, t.month, 1);
      }
    }
  }
}
