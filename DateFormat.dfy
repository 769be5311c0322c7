/** `Log4js.DateFormatter`: `addZero`, the time-zone offset text `O`, and
    `formatDate`, which substitutes date fields into a pattern. */
module DateFormat {
  import opened Text

  /** The values a JavaScript `Date` reports through its local getters:
      `getFullYear`, `getMonth` (0-based), `getDate`, `getHours`, `getMinutes`,
      `getSeconds` and `getTimezoneOffset` (minutes, UTC minus local time). */
  datatype DateFields = DateFields(
    fullYear: int, month: int, date: int,
    hours: int, minutes: int, seconds: int,
    timezoneOffset: int)

  /** `DateFormatter.DEFAULT_DATE_FORMAT`. */
  const DEFAULT_DATE_FORMAT: string := "yyyy-MM-ddThh:mm:ssO"

  /** The pattern `JSONLayout` formats its timestamps with. */
  const JSON_DATE_FORMAT: string := "yyyy-MM-ddThh:mm:ssZ"

  /** `addZero(n)`: a "0" in front of every number below 10 (negative ones too). */
  function AddZero(n: int): string
  {
    (if n < 10 then "0" else "") + IntToString(n)
  }

  /** The characters a number or an offset is written with. */
  predicate NumericText(s: string)
  {
    forall i :: 0 <= i < |s| ==> IsDigit(s[i]) || s[i] == '-' || s[i] == '+'
  }

  /** `addZero` writes digits with at most a minus sign; a negative number
      still gets the "0" in front, before its sign. */
  lemma AddZeroIsNumeric(n: int)
    ensures NumericText(AddZero(n))
    ensures n < 0 ==>
      && |AddZero(n)| >= 3 && AddZero(n)[..2] == "0-"
      && (forall i :: 2 <= i < |AddZero(n)| ==> IsDigit(AddZero(n)[i]))
      && DecimalValue(AddZero(n)[2..]) == -n
  {
    var digits := NatToString(if n < 0 then -n else n);
    if n < 0 {
      assert AddZero(n) == "0-" + digits;
      NatToStringRoundTrip(-n);
      assert AddZero(n)[2..] == digits;
    } else if n < 10 {
      assert AddZero(n) == "0" + digits;
    } else {
      assert AddZero(n) == digits;
    }
  }

  /** For a non-negative number `addZero` yields digits with at least two of
      them, exactly two below 100, and reads back as the number. */
  lemma AddZeroRoundTrip(n: nat)
    ensures forall i :: 0 <= i < |AddZero(n)| ==> IsDigit(AddZero(n)[i])
    ensures |AddZero(n)| >= 2 && (n < 100 ==> |AddZero(n)| == 2)
    ensures DecimalValue(AddZero(n)) == n
  {
    NatToStringRoundTrip(n);
    assert IntToString(n) == NatToString(n);
    if n < 10 {
      LeadingZero(NatToString(n));
    } else {
      assert AddZero(n) == NatToString(n);
    }
  }

  /** Pads a one-character string to two with a leading "0", as `O` does. */
  function PadTwo(s: string): string
  {
    if |s| == 1 then "0" + s else s
  }

  /** `O(date)`: the sign ("+" when the offset is negative, that is, east of UTC),
      then the hours and the minutes of the absolute offset, each padded to two. */
  function OffsetText(offset: int): string
  {
    var os: nat := if offset < 0 then -offset else offset;
    (if offset < 0 then "+" else "-") + PadTwo(NatToString(os / 60)) + PadTwo(NatToString(os % 60))
  }

  /** The offset text is a sign, "+" east of UTC and "-" otherwise, followed
      by at least four digits. */
  lemma OffsetTextIsNumeric(offset: int)
    ensures NumericText(OffsetText(offset))
    ensures |OffsetText(offset)| >= 5
    ensures OffsetText(offset)[0] == (if offset < 0 then '+' else '-')
    ensures forall i :: 1 <= i < |OffsetText(offset)| ==> IsDigit(OffsetText(offset)[i])
  {
  }

  /** Reads an offset back from its five-character text. */
  function ParseOffset(s: string): int
    requires |s| == 5 && forall i :: 1 <= i < 5 ==> IsDigit(s[i])
  {
    var minutes := 60 * DecimalValue(s[1..3]) + DecimalValue(s[3..5]);
    if s[0] == '+' then -minutes else minutes
  }

  /** For offsets of less than 100 hours the text has five characters and reads
      back as the offset. */
  lemma {:induction false} OffsetTextRoundTrip(offset: int)
    requires -6000 < offset < 6000
    ensures |OffsetText(offset)| == 5
    ensures OffsetText(offset)[0] == (if offset < 0 then '+' else '-')
    ensures forall i :: 1 <= i < 5 ==> IsDigit(OffsetText(offset)[i])
    ensures ParseOffset(OffsetText(offset)) == offset
  {
    var os: nat := if offset < 0 then -offset else offset;
    var h, m := NatToString(os / 60), NatToString(os % 60);
    PadTwoRoundTrip(os / 60);
    PadTwoRoundTrip(os % 60);
    var s := OffsetText(offset);
    assert s[1..3] == PadTwo(h) && s[3..5] == PadTwo(m);
  }

  lemma PadTwoRoundTrip(n: nat)
    requires n < 100
    ensures |PadTwo(NatToString(n))| == 2
    ensures forall i :: 0 <= i < 2 ==> IsDigit(PadTwo(NatToString(n))[i])
    ensures DecimalValue(PadTwo(NatToString(n))) == n
  {
    NatToStringRoundTrip(n);
    if n < 10 {
      LeadingZero(NatToString(n));
    }
  }

  /** `addZero(getFullYear().toString().substring(3,4))`: the fourth character of
      the year's text behind a "0", or "0" alone when the text is shorter. */
  function ShortYear(fullYear: int): string
  {
    var y := IntToString(fullYear);
    "0" + (if |y| > 3 then y[3..4] else "")
  }

  /** The number of leading "y" of `s`, at most four: one match of `/y{1,4}/`. */
  function YearRun(s: string): (n: nat)
    requires s != [] && s[0] == 'y'
    ensures 1 <= n <= 4 && n <= |s|
  {
    if |s| >= 2 && s[1] == 'y' then
      if |s| >= 3 && s[2] == 'y' then
        if |s| >= 4 && s[3] == 'y' then 4 else 3
      else 2
    else 1
  }

  /** `s.replace(/y{1,4}/g, year)`. */
  function ReplaceYears(s: string, year: string): string
    decreases |s|
  {
    if s == [] then []
    else if s[0] == 'y' then year + ReplaceYears(s[YearRun(s)..], year)
    else [s[0]] + ReplaceYears(s[1..], year)
  }

  /** `true` when `pat` occurs in `s`: `s.indexOf(pat) > -1`. */
  predicate Contains(s: string, pat: string)
    decreases |s|
  {
    |s| >= |pat| && (s[..|pat|] == pat || (s != [] && Contains(s[1..], pat)))
  }

  /** `formatDate(date, pattern)`: the fields are rendered first, then substituted
      in this order: `dd`, `MM`, `y{1,4}`, `hh`, `mm`, `ss`, `O`, each pass
      over the result of the previous one. The year is the long one when the
      pattern contains `yyyy`, the short one otherwise. */
  function FormatDate(d: DateFields, pattern: string): string
  {
    var day := AddZero(d.date);
    var month := AddZero(d.month + 1);
    var year := if Contains(pattern, "yyyy") then AddZero(d.fullYear) else ShortYear(d.fullYear);
    var hour := AddZero(d.hours);
    var minute := AddZero(d.minutes);
    var second := AddZero(d.seconds);
    OffsetPass(TimePass(DatePass(pattern, day, month, year), hour, minute, second), d.timezoneOffset)
  }

  /** The `O` pass of `formatDate`. */
  function OffsetPass(s: string, offset: int): string
  {
    ReplaceAll(s, "O", OffsetText(offset))
  }

  /** The `dd`, `MM` and year passes of `formatDate`. */
  function DatePass(s: string, day: string, month: string, year: string): string
  {
    ReplaceYears(ReplaceAll(ReplaceAll(s, "dd", day), "MM", month), year)
  }

  /** The `hh`, `mm` and `ss` passes of `formatDate`. */
  function TimePass(s: string, hour: string, minute: string, second: string): string
  {
    ReplaceAll(ReplaceAll(ReplaceAll(s, "hh", hour), "mm", minute), "ss", second)
  }

  /** A run of exactly four "y" followed by no other "y" becomes the year. */
  lemma {:induction false} ReplaceYearsOnce(t: string, year: string)
    requires 'y' !in t
    ensures ReplaceYears("yyyy" + t, year) == year + t
  {
    var s := "yyyy" + t;
    assert s[..4] == "yyyy";
    assert YearRun(s) == 4;
    assert s[4..] == t;
    ReplaceYearsNone(t, year);
  }

  lemma {:induction false} ReplaceYearsNone(t: string, year: string)
    requires 'y' !in t
    ensures ReplaceYears(t, year) == t
  {
    if t != [] {
      assert t[0] in t;
      ReplaceYearsNone(t[1..], year);
      assert t == [t[0]] + t[1..];
    }
  }

  /** No character of `s` starts one of the tokens `formatDate` replaces. */
  predicate TokenFree(s: string)
  {
    DateTokenFree(s) && TimeTokenFree(s) && 'O' !in s
  }

  predicate DateTokenFree(s: string)
  {
    'd' !in s && 'M' !in s && 'y' !in s
  }

  predicate TimeTokenFree(s: string)
  {
    'h' !in s && 'm' !in s && 's' !in s
  }

  lemma NumericIsTokenFree(s: string)
    requires NumericText(s)
    ensures TokenFree(s)
  {
  }

  /** The first three passes (`dd`, `MM`, the year) over `yyyy-MM-dd` followed by
      a rest in which they find nothing. */
  lemma DatePasses(rest: string, day: string, month: string, year: string)
    requires DateTokenFree(rest) && DateTokenFree(day) && DateTokenFree(month)
    ensures DatePass("yyyy-MM-dd" + rest, day, month, year) == year + "-" + month + "-" + day + rest
  {
    var t1 := "-" + day + rest;
    var t2 := "-" + month + t1;
    var s1 := ReplaceAll("yyyy-MM-dd" + rest, "dd", day);
    assert s1 == "yyyy-" + "MM" + t1 by {
      assert "yyyy-MM-dd" + rest == "yyyy-MM-" + "dd" + rest;
      ReplaceOnce("yyyy-MM-", rest, "dd", day);
    }
    var s2 := ReplaceAll(s1, "MM", month);
    assert s2 == "yyyy" + t2 by {
      ReplaceOnce("yyyy-", t1, "MM", month);
    }
    assert ReplaceYears(s2, year) == year + t2 by {
      ReplaceYearsOnce(t2, year);
    }
  }

  /** The next three passes (`hh`, `mm`, `ss`) over `hh:mm:ss` between a prefix
      and a tail in which they find nothing. */
  lemma TimePasses(prefix: string, tail: string, hour: string, minute: string, second: string)
    requires TimeTokenFree(prefix) && TimeTokenFree(tail) && TimeTokenFree(hour) && TimeTokenFree(minute)
    ensures TimePass(prefix + "hh:mm:ss" + tail, hour, minute, second) == prefix + hour + ":" + minute + ":" + second + tail
  {
    var p1 := prefix + hour + ":";
    var p2 := p1 + minute + ":";
    var s1 := ReplaceAll(prefix + "hh:mm:ss" + tail, "hh", hour);
    assert s1 == p1 + "mm" + (":ss" + tail) by {
      assert prefix + "hh:mm:ss" + tail == prefix + "hh" + (":mm:ss" + tail);
      ReplaceOnce(prefix, ":mm:ss" + tail, "hh", hour);
    }
    var s2 := ReplaceAll(s1, "mm", minute);
    assert s2 == p2 + "ss" + tail by {
      ReplaceOnce(p1, ":ss" + tail, "mm", minute);
    }
    assert ReplaceAll(s2, "ss", second) == p2 + second + tail by {
      ReplaceOnce(p2, tail, "ss", second);
    }
  }

  /** The six field passes over `yyyy-MM-ddThh:mm:ss` followed by a tail in which
      they find nothing put each rendered field in its place. */
  lemma IsoPasses(tail: string, day: string, month: string, year: string,
                  hour: string, minute: string, second: string)
    requires DateTokenFree(tail) && TimeTokenFree(tail)
    requires DateTokenFree(day) && DateTokenFree(month)
    requires TimeTokenFree(year) && TimeTokenFree(month) && TimeTokenFree(day)
    requires TimeTokenFree(hour) && TimeTokenFree(minute)
    ensures TimePass(DatePass("yyyy-MM-ddThh:mm:ss" + tail, day, month, year), hour, minute, second)
         == year + "-" + month + "-" + day + "T" + hour + ":" + minute + ":" + second + tail
  {
    var rest := "Thh:mm:ss" + tail;
    var prefix := year + "-" + month + "-" + day + "T";
    assert DatePass("yyyy-MM-ddThh:mm:ss" + tail, day, month, year) == prefix + "hh:mm:ss" + tail by {
      assert "yyyy-MM-ddThh:mm:ss" + tail == "yyyy-MM-dd" + rest;
      DatePasses(rest, day, month, year);
    }
    TimePasses(prefix, tail, hour, minute, second);
  }

  /** The passes over a pattern laid out as `yyyy-MM-ddThh:mm:ss` followed by
      a tail in which only the offset pass may find something. */
  lemma IsoPrefixPasses(d: DateFields, tail: string)
    requires DateTokenFree(tail) && TimeTokenFree(tail)
    ensures FormatDate(d, "yyyy-MM-ddThh:mm:ss" + tail) == OffsetPass(IsoText(d) + tail, d.timezoneOffset)
  {
    var pattern := "yyyy-MM-ddThh:mm:ss" + tail;
    assert Contains(pattern, "yyyy") by {
      assert pattern[..4] == "yyyy";
    }
    var day, month, year := AddZero(d.date), AddZero(d.month + 1), AddZero(d.fullYear);
    var hour, minute, second := AddZero(d.hours), AddZero(d.minutes), AddZero(d.seconds);
    var timed := TimePass(DatePass(pattern, day, month, year), hour, minute, second);
    assert FormatDate(d, pattern) == OffsetPass(timed, d.timezoneOffset);
    FieldsAreTokenFree(d);
    IsoPasses(tail, day, month, year, hour, minute, second);
    assert timed == IsoText(d) + tail;
  }

  lemma FieldsAreTokenFree(d: DateFields)
    ensures TokenFree(AddZero(d.date)) && TokenFree(AddZero(d.month + 1))
    ensures TokenFree(AddZero(d.fullYear)) && TokenFree(AddZero(d.hours))
    ensures TokenFree(AddZero(d.minutes)) && TokenFree(AddZero(d.seconds))
  {
    AddZeroIsNumeric(d.date);
    AddZeroIsNumeric(d.month + 1);
    AddZeroIsNumeric(d.fullYear);
    AddZeroIsNumeric(d.hours);
    AddZeroIsNumeric(d.minutes);
    AddZeroIsNumeric(d.seconds);
    NumericIsTokenFree(AddZero(d.date));
    NumericIsTokenFree(AddZero(d.month + 1));
    NumericIsTokenFree(AddZero(d.fullYear));
    NumericIsTokenFree(AddZero(d.hours));
    NumericIsTokenFree(AddZero(d.minutes));
    NumericIsTokenFree(AddZero(d.seconds));
  }

  /** The date and time part of the ISO-like patterns, field by field. */
  function IsoText(d: DateFields): string
  {
    AddZero(d.fullYear) + "-" + AddZero(d.month + 1) + "-" + AddZero(d.date) + "T"
      + AddZero(d.hours) + ":" + AddZero(d.minutes) + ":" + AddZero(d.seconds)
  }

  /** The JSON layout's timestamp: each field in its place and a literal "Z". */
  lemma FormatDateJson(d: DateFields)
    ensures FormatDate(d, JSON_DATE_FORMAT) == IsoText(d) + "Z"
  {
    assert JSON_DATE_FORMAT == "yyyy-MM-ddThh:mm:ss" + "Z";
    IsoPrefixPasses(d, "Z");
    IsoTextHasNoOffsetToken(d);
    ReplaceAllNone(IsoText(d) + "Z", "O", OffsetText(d.timezoneOffset));
    assert OffsetPass(IsoText(d) + "Z", d.timezoneOffset) == IsoText(d) + "Z";
  }

  lemma IsoTextHasNoOffsetToken(d: DateFields)
    ensures 'O' !in IsoText(d)
  {
    FieldsAreTokenFree(d);
  }

  /** The default pattern: each field in its place, then the offset text. */
  lemma FormatDateDefault(d: DateFields)
    ensures FormatDate(d, DEFAULT_DATE_FORMAT) == IsoText(d) + OffsetText(d.timezoneOffset)
  {
    assert DEFAULT_DATE_FORMAT == "yyyy-MM-ddThh:mm:ss" + "O";
    IsoPrefixPasses(d, "O");
    IsoTextHasNoOffsetToken(d);
    ReplaceOnce(IsoText(d), [], "O", OffsetText(d.timezoneOffset));
    assert IsoText(d) + "O" + [] == IsoText(d) + "O";
  }

  /** A pattern without any token letter comes back unchanged. */
  lemma FormatDateOfLiteral(d: DateFields, pattern: string)
    requires TokenFree(pattern)
    ensures FormatDate(d, pattern) == pattern
  {
    var day, month := AddZero(d.date), AddZero(d.month + 1);
    var year := if Contains(pattern, "yyyy") then AddZero(d.fullYear) else ShortYear(d.fullYear);
    ReplaceAllNone(pattern, "dd", day);
    ReplaceAllNone(pattern, "MM", month);
    ReplaceYearsNone(pattern, year);
    assert DatePass(pattern, day, month, year) == pattern;
    ReplaceAllNone(pattern, "hh", AddZero(d.hours));
    ReplaceAllNone(pattern, "mm", AddZero(d.minutes));
    ReplaceAllNone(pattern, "ss", AddZero(d.seconds));
    assert TimePass(pattern, AddZero(d.hours), AddZero(d.minutes), AddZero(d.seconds)) == pattern;
    ReplaceAllNone(pattern, "O", OffsetText(d.timezoneOffset));
  }

  /** The decimal text of a four-digit year ends in its last digit. */
  lemma FourDigitYearText(y: nat)
    requires 1000 <= y <= 9999
    ensures |NatToString(y)| == 4 && NatToString(y)[3] == DigitChar(y % 10)
  {
    assert |NatToString(y / 100)| == 2;
    assert |NatToString(y / 10)| == 3;
  }

  /** As written, the short year of a four-digit year is "0" followed by its
      last digit: `substring(3,4)` keeps one character, which `addZero` pads. */
  lemma ShortYearKeepsOneDigit(y: int)
    requires 1000 <= y <= 9999
    ensures ShortYear(y) == ['0', DigitChar(y % 10)]
  {
    FourDigitYearText(y);
  }

  /** The two-digit year that a `yy` pattern evidently asks for. */
  function TwoDigitYear(y: nat): (r: string)
    ensures |r| == 2 && (forall i :: 0 <= i < 2 ==> IsDigit(r[i])) && DecimalValue(r) == y % 100
  {
    PadTwoRoundTrip(y % 100);
    PadTwo(NatToString(y % 100))
  }

  /** A `yy` pattern is replaced by the short year and nothing else. */
  lemma FormatDateShortYear(d: DateFields)
    requires 1000 <= d.fullYear <= 9999
    ensures FormatDate(d, "yy") == ShortYear(d.fullYear)
  {
    var year := ShortYear(d.fullYear);
    ShortYearKeepsOneDigit(d.fullYear);
    assert TokenFree(year);
    assert !Contains("yy", "yyyy");
    ReplaceAllNone("yy", "dd", AddZero(d.date));
    ReplaceAllNone("yy", "MM", AddZero(d.month + 1));
    assert YearRun("yy") == 2;
    assert ReplaceYears("yy", year) == year + ReplaceYears([], year);
    assert DatePass("yy", AddZero(d.date), AddZero(d.month + 1), year) == year;
    ReplaceAllNone(year, "hh", AddZero(d.hours));
    ReplaceAllNone(year, "mm", AddZero(d.minutes));
    ReplaceAllNone(year, "ss", AddZero(d.seconds));
    ReplaceAllNone(year, "O", OffsetText(d.timezoneOffset));
  }

  /** `formatDate(date, "yy")` in 2024 writes "04" where "24" is meant. */
  lemma ShortYearIn2024(d: DateFields)
    requires d.fullYear == 2024
    ensures FormatDate(d, "yy") == "04"
    ensures TwoDigitYear(2024) == "24"
  {
    FormatDateShortYear(d);
    ShortYearKeepsOneDigit(2024);
    TwoDigitYearOf2024();
  }

  lemma TwoDigitYearOf2024()
    ensures TwoDigitYear(2024) == "24"
  {
    assert NatToString(24) == NatToString(2) + [DigitChar(4)];
  }
}
