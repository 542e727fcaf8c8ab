/** Field conversions of bai2/utils.py: YYMMDD dates, HHMM ("military") and
    HH:MM:SS ("clock") times with an end-of-day sentinel, type-code lookup and
    the rendering of an absent value as the empty string. */
module Utils {
  import opened Outcomes
  import opened Strings
  import opened Constants

  // ----- dates -----

  /** A calendar date; `year` is the full year. */
  datatype Date = Date(year: int, month: int, day: int)

  predicate IsLeapYear(y: int) {
    y % 4 == 0 && (y % 100 != 0 || y % 400 == 0)
  }

  function DaysInMonth(y: int, m: int): int
    requires 1 <= m <= 12
  {
    if m == 2 then (if IsLeapYear(y) then 29 else 28)
    else if m == 4 || m == 6 || m == 9 || m == 11 then 30
    else 31
  }

  /** A date that exists in the proleptic Gregorian calendar of Python's `date`. */
  predicate ValidDate(d: Date) {
    1 <= d.year <= 9999 && 1 <= d.month <= 12 && 1 <= d.day <= DaysInMonth(d.year, d.month)
  }

  /** The dates a model can hold: Python `date` objects always exist. */
  type CalendarDate = d: Date | ValidDate(d) witness Date(2000, 1, 1)

  /** The century pivot of `%y`: 69..99 are 1969..1999, 00..68 are 2000..2068. */
  function CenturyOf(yy: nat): (y: int)
    requires yy < 100
    ensures 1969 <= y <= 2068 && y % 100 == yy
  {
    if yy >= 69 then 1900 + yy else 2000 + yy
  }

  /** The number written by the two digits of `s` at `i`. */
  function PairAt(s: string, i: nat): (n: nat)
    requires i + 2 <= |s| && IsDigit(s[i]) && IsDigit(s[i + 1])
    ensures n < 100
  {
    assert IsDigits(s[i..i + 2]);
    TwoDigitsOfValue(s[i..i + 2]);
    DigitsValue(s[i..i + 2])
  }

  /** `parse_date`: exactly six digits YYMMDD naming an existing date. */
  function ParseDate(s: string): (r: Result<CalendarDate>)
    ensures r.Ok? ==> ValidDate(r.value) && 1969 <= r.value.year <= 2068
    ensures r.Ok? ==> |s| == 6 && IsDigits(s)
  {
    if |s| == 6 && IsDigits(s) then
      var d := Date(CenturyOf(PairAt(s, 0)), PairAt(s, 2), PairAt(s, 4));
      if ValidDate(d) then Ok(d) else Err(DecodeFailure)
    else
      Err(DecodeFailure)
  }

  /** `write_date`: `%y%m%d`. */
  function WriteDate(d: Date): (s: string)
    requires ValidDate(d)
    ensures |s| == 6 && IsDigits(s)
  {
    TwoDigits(d.year % 100) + TwoDigits(d.month) + TwoDigits(d.day)
  }

  lemma DigitsSlices(s: string)
    requires |s| == 6 && IsDigits(s)
    ensures IsDigits(s[0..2]) && IsDigits(s[2..4]) && IsDigits(s[4..6])
    ensures s == s[0..2] + s[2..4] + s[4..6]
  {
  }

  /** A date read from YYMMDD writes back to the same six digits. */
  lemma WriteParsedDate(s: string)
    requires ParseDate(s).Ok?
    ensures WriteDate(ParseDate(s).value) == s
  {
    DigitsSlices(s);
    TwoDigitsOfValue(s[0..2]);
    TwoDigitsOfValue(s[2..4]);
    TwoDigitsOfValue(s[4..6]);
  }

  /** A date of the `%y` window survives writing and reading back. */
  lemma ParseWrittenDate(d: Date)
    requires ValidDate(d) && 1969 <= d.year <= 2068
    ensures ParseDate(WriteDate(d)) == Ok(d)
  {
    var s := WriteDate(d);
    assert s[0..2] == TwoDigits(d.year % 100);
    assert s[2..4] == TwoDigits(d.month);
    assert s[4..6] == TwoDigits(d.day);
    TwoDigitsValue(d.year % 100);
    TwoDigitsValue(d.month);
    TwoDigitsValue(d.day);
  }

  // ----- times -----

  /** A time of day to the second, or the end-of-day sentinel (`time.max`),
      which the military values 2400 and 9999 stand for. */
  datatype Time = Clock(hour: int, minute: int, second: int) | EndOfDay

  predicate ValidTime(t: Time) {
    t.Clock? ==> 0 <= t.hour < 24 && 0 <= t.minute < 60 && 0 <= t.second < 60
  }

  /** The times a model can hold. */
  type TimeOfDay = t: Time | ValidTime(t) witness EndOfDay

  predicate DigitAt(v: string, i: nat) { i < |v| && IsDigit(v[i]) }

  /** The regular expression `\d\d:\d\d:\d\d` matched at the start of `v`. */
  predicate ClockPattern(v: string) {
    |v| >= 8 && DigitAt(v, 0) && DigitAt(v, 1) && v[2] == ':' && DigitAt(v, 3) && DigitAt(v, 4)
    && v[5] == ':' && DigitAt(v, 6) && DigitAt(v, 7)
  }

  /** `parse_clock_time`: exactly HH:MM:SS. */
  function ParseClockTime(v: string): (r: Result<TimeOfDay>)
    ensures r.Ok? ==> ClockPattern(v) && |v| == 8 && r.value.Clock? && ValidTime(r.value)
  {
    if |v| == 8 && ClockPattern(v) then
      var t := Clock(PairAt(v, 0), PairAt(v, 3), PairAt(v, 6));
      if ValidTime(t) then Ok(t) else Err(DecodeFailure)
    else
      Err(DecodeFailure)
  }

  /** `parse_military_time`: 9999 and 2400 are the end of the day, anything
      else must be HHMM and has no seconds. */
  function ParseMilitaryTime(v: string): (r: Result<TimeOfDay>)
    ensures r == Ok(EndOfDay) <==> (v == "9999" || v == "2400")
    ensures r.Ok? && r.value.Clock? ==> |v| == 4 && IsDigits(v) && r.value.second == 0 && ValidTime(r.value)
  {
    if v == "9999" || v == "2400" then Ok(EndOfDay)
    else if |v| == 4 && IsDigits(v) then
      var t := Clock(PairAt(v, 0), PairAt(v, 2), 0);
      if ValidTime(t) then Ok(t) else Err(DecodeFailure)
    else
      Err(DecodeFailure)
  }

  /** `parse_time`: clock format when the value starts like HH:MM:SS,
      military format otherwise; only a clock value can carry seconds. */
  function ParseTime(v: string): (r: Result<TimeOfDay>)
    ensures r.Ok? ==> ValidTime(r.value)
    ensures r.Ok? && r.value.Clock? ==> (|v| == 8 && ClockPattern(v)) || (|v| == 4 && IsDigits(v))
    ensures r.Ok? && r.value.Clock? && r.value.second != 0 ==> ClockPattern(v)
    ensures |v| < 8 ==> r == ParseMilitaryTime(v)
  {
    if ClockPattern(v) then ParseClockTime(v) else ParseMilitaryTime(v)
  }

  /** `write_clock_time`: HH:MM:SS; the sentinel carries the fields of `time.max`. */
  function WriteClockTime(t: Time): (s: string)
    requires ValidTime(t)
    ensures |s| == 8 && ClockPattern(s)
  {
    match t
    case EndOfDay => "23:59:59"
    case Clock(h, m, sec) => TwoDigits(h) + ":" + TwoDigits(m) + ":" + TwoDigits(sec)
  }

  /** `write_military_time`: 2400 for the sentinel, HHMM otherwise (seconds dropped). */
  function WriteMilitaryTime(t: Time): (s: string)
    requires ValidTime(t)
    ensures |s| == 4 && IsDigits(s)
    ensures s == "2400" <==> t == EndOfDay
  {
    match t
    case EndOfDay => "2400"
    case Clock(h, m, _) =>
      var s := TwoDigits(h) + TwoDigits(m);
      assert s != "2400" by {
        assert s[0] == DigitChar(h / 10) && s[1] == DigitChar(h % 10);
        if h / 10 == 2 { assert h % 10 < 4; }
      }
      s
  }

  /** `write_time`: clock format only for intra-day times and only when asked. */
  function WriteTime(t: Time, clockFormatForIntraDay: bool): (s: string)
    requires ValidTime(t)
    ensures t == EndOfDay ==> s == "2400"
    ensures t.Clock? && clockFormatForIntraDay ==> |s| == 8 && ClockPattern(s)
    ensures t.Clock? && !clockFormatForIntraDay ==> |s| == 4 && IsDigits(s) && s != "2400"
  {
    if clockFormatForIntraDay && t != EndOfDay then WriteClockTime(t) else WriteMilitaryTime(t)
  }

  /** Both end-of-day spellings read as the one sentinel; 2145 and 0000 are
      ordinary times. */
  lemma MilitaryExamples()
    ensures ParseMilitaryTime("9999") == ParseMilitaryTime("2400") == Ok(EndOfDay)
    ensures ParseMilitaryTime("2145") == Ok(Clock(21, 45, 0))
    ensures ParseMilitaryTime("0000") == Ok(Clock(0, 0, 0))
  {
    assert "2145"[0..2] == "21" && "2145"[2..4] == "45";
    assert "21"[..1] == "2" && "45"[..1] == "4";
    assert DigitsValue("21") == 21 && DigitsValue("45") == 45;
    assert "0000"[0..2] == "00" && "0000"[2..4] == "00";
    assert "00"[..1] == "0";
  }

  /** HHMM written from a time without seconds reads back as that time. */
  lemma ParseWrittenMilitaryTime(t: Time)
    requires ValidTime(t) && (t.Clock? ==> t.second == 0)
    ensures ParseMilitaryTime(WriteMilitaryTime(t)) == Ok(t)
  {
    if t.Clock? {
      var s := WriteMilitaryTime(t);
      assert s[0..2] == TwoDigits(t.hour) && s[2..4] == TwoDigits(t.minute);
      TwoDigitsValue(t.hour);
      TwoDigitsValue(t.minute);
      assert s[0] == DigitChar(t.hour / 10);
    }
  }

  /** A military value other than 9999 is written back unchanged. */
  lemma WriteParsedMilitaryTime(v: string)
    requires ParseMilitaryTime(v).Ok? && v != "9999"
    ensures WriteMilitaryTime(ParseMilitaryTime(v).value) == v
  {
    if v != "2400" {
      assert IsDigits(v[0..2]) && IsDigits(v[2..4]);
      TwoDigitsOfValue(v[0..2]);
      TwoDigitsOfValue(v[2..4]);
      assert v == v[0..2] + v[2..4];
    }
  }

  /** HH:MM:SS written from an intra-day time reads back, through the
      dispatching `parse_time`, as the same time. */
  lemma ParseWrittenClockTime(t: Time)
    requires ValidTime(t) && t.Clock?
    ensures ParseTime(WriteClockTime(t)) == Ok(t)
  {
    var s := WriteClockTime(t);
    assert s[0..2] == TwoDigits(t.hour) && s[3..5] == TwoDigits(t.minute) && s[6..8] == TwoDigits(t.second);
    TwoDigitsValue(t.hour);
    TwoDigitsValue(t.minute);
    TwoDigitsValue(t.second);
  }

  /** `parse_time(write_time(t, flag)) == t` whenever the written form keeps
      all of `t`: the sentinel, clock format, or a time without seconds. */
  lemma ParseWrittenTime(t: Time, clockFormatForIntraDay: bool)
    requires ValidTime(t)
    requires t.Clock? && !clockFormatForIntraDay ==> t.second == 0
    ensures ParseTime(WriteTime(t, clockFormatForIntraDay)) == Ok(t)
  {
    if clockFormatForIntraDay && t != EndOfDay {
      ParseWrittenClockTime(t);
    } else {
      ParseWrittenMilitaryTime(t);
    }
  }

  // ----- other conversions -----

  /** `parse_type_code`: a lookup in the type-code table (KeyError otherwise). */
  function ParseTypeCode(v: string): (r: Result<TypeCode>)
    ensures r.Ok? <==> v in TypeCodeKeys
    ensures r.Ok? ==> r.value.code == v
    ensures r.Err? ==> r.error == UnknownTypeCode(v)
  {
    if v in TypeCodeKeys then Ok(TypeCode(v)) else Err(UnknownTypeCode(v))
  }

  /** `convert_to_string` of an optional integer: '' exactly for None. */
  function IntField(o: Option<int>): (s: string)
    ensures s == "" <==> o.None?
    ensures o.Some? ==> ParseInt(s) == Ok(o.value)
  {
    match o
    case None => ""
    case Some(i) => ParseIntOfString(i); IntToString(i)
  }

  /** `convert_to_string` of an optional text: '' for None, the text otherwise. */
  function TextField(o: Option<string>): (s: string)
    ensures o.None? ==> s == ""
    ensures o.Some? ==> s == o.value
  {
    match o
    case None => ""
    case Some(t) => t
  }
}
