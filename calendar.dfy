/** Proleptic Gregorian dates and naive date-times as the `datetime` module
    has them, the `%Y-%m-%d` and `%Y-%m-%d %H:%M:%S` formats as
    `datetime.strptime` reads them, and the strict ISO 8601 text form that
    pydantic reads into `date` and `datetime` values. */
module Calendar {
  import opened Wrappers
  import opened Text

  datatype Date = Date(year: int, month: int, day: int)

  datatype DateTime = DateTime(date: Date, hour: int, minute: int, second: int)

  /** `datetime.MINYEAR` and `datetime.MAXYEAR`. */
  const MinYear: int := 1
  const MaxYear: int := 9999

  /** `calendar.isleap`. */
  predicate IsLeapYear(year: int)
  {
    year % 4 == 0 && (year % 100 != 0 || year % 400 == 0)
  }

  /** `calendar.monthrange(year, month)[1]`: the number of days of the month. */
  function DaysInMonth(year: int, month: int): (n: int)
    requires 1 <= month <= 12
    ensures 28 <= n <= 31
    ensures n == 29 <==> month == 2 && IsLeapYear(year)
    ensures n == 28 <==> month == 2 && !IsLeapYear(year)
    ensures n == 30 <==> month == 4 || month == 6 || month == 9 || month == 11
  {
    if month == 2 then (if IsLeapYear(year) then 29 else 28)
    else if month == 4 || month == 6 || month == 9 || month == 11 then 30
    else 31
  }

  /** The dates `datetime.date` can hold. */
  predicate ValidDate(d: Date)
  {
    MinYear <= d.year <= MaxYear && 1 <= d.month <= 12 && 1 <= d.day <= DaysInMonth(d.year, d.month)
  }

  /** The naive date-times `datetime.datetime` can hold with no fraction of a second. */
  predicate ValidDateTime(t: DateTime)
  {
    ValidDate(t.date) && 0 <= t.hour <= 23 && 0 <= t.minute <= 59 && 0 <= t.second <= 59
  }

  /** The values held by `date` and `datetime` objects. */
  type Day = d: Date | ValidDate(d) witness Date(1, 1, 1)
  type Moment = t: DateTime | ValidDateTime(t) witness DateTime(Date(1, 1, 1), 0, 0, 0)

  /** `a < b` on dates: year, then month, then day. */
  predicate DateBefore(a: Date, b: Date)
  {
    a.year < b.year
    || (a.year == b.year && (a.month < b.month || (a.month == b.month && a.day < b.day)))
  }

  /** `a <= b` on dates. */
  predicate DateAtMost(a: Date, b: Date)
  {
    a == b || DateBefore(a, b)
  }

  /** `a < b` on naive date-times. */
  predicate DateTimeBefore(a: DateTime, b: DateTime)
  {
    DateBefore(a.date, b.date)
    || (a.date == b.date
        && (a.hour < b.hour
            || (a.hour == b.hour && (a.minute < b.minute || (a.minute == b.minute && a.second < b.second)))))
  }

  /** Date order is a strict total order, so `<=` is a total order. */
  lemma DateOrder(a: Date, b: Date, c: Date)
    ensures !DateBefore(a, a)
    ensures DateBefore(a, b) ==> !DateBefore(b, a)
    ensures DateBefore(a, b) && DateBefore(b, c) ==> DateBefore(a, c)
    ensures DateAtMost(a, b) && DateAtMost(b, c) ==> DateAtMost(a, c)
    ensures DateAtMost(a, b) || DateBefore(b, a)
    ensures DateAtMost(a, b) <==> !DateBefore(b, a)
  {
  }

  /** February 29th exists exactly in leap years. */
  lemma LeapDay(year: int)
    requires MinYear <= year <= MaxYear
    ensures ValidDate(Date(year, 2, 29)) <==> IsLeapYear(year)
    ensures !ValidDate(Date(year, 2, 30))
  {
  }

  // ----- the ISO text form -----

  lemma {:induction false} DigitsValueBound(s: string)
    requires AllDigits(s)
    ensures DigitsValue(s) < Pow10(|s|)
  {
    if s != [] {
      DigitsValueBound(s[..|s| - 1]);
    }
  }

  lemma {:induction false} NatToStringLength(n: nat, k: nat)
    requires 1 <= k && n < Pow10(k)
    ensures |NatToString(n)| <= k
  {
    if n >= 10 {
      assert k >= 2;
      NatToStringLength(n / 10, k - 1);
    }
  }

  /** Two digit strings of the same length with the same value are equal. */
  lemma {:induction false} DigitsValueInjective(a: string, b: string)
    requires AllDigits(a) && AllDigits(b) && |a| == |b|
    requires DigitsValue(a) == DigitsValue(b)
    ensures a == b
  {
    if a != [] {
      var a', b' := a[..|a| - 1], b[..|b| - 1];
      assert DigitValue(a[|a| - 1]) == DigitValue(b[|b| - 1]);
      DigitsValueInjective(a', b');
      assert a == a' + [a[|a| - 1]];
      assert b == b' + [b[|b| - 1]];
    }
  }

  /** Zero-padding the value of a digit string to its length gives it back. */
  lemma PadDigits(s: string)
    requires AllDigits(s) && |s| >= 1
    ensures PadNat(DigitsValue(s), |s|) == s
  {
    DigitsValueBound(s);
    NatToStringLength(DigitsValue(s), |s|);
    DigitsValueInjective(PadNat(DigitsValue(s), |s|), s);
  }

  lemma PadWidth(n: nat, k: nat)
    requires 1 <= k && n < Pow10(k)
    ensures |PadNat(n, k)| == k
  {
    NatToStringLength(n, k);
  }

  /** `date.isoformat()`, which is also `str(date)`. */
  function FormatDate(d: Date): (s: string)
    requires ValidDate(d)
    ensures |s| == 10
  {
    PadWidth(d.year, 4);
    PadWidth(d.month, 2);
    PadWidth(d.day, 2);
    PadNat(d.year, 4) + "-" + PadNat(d.month, 2) + "-" + PadNat(d.day, 2)
  }

  /** `str(datetime)` for a naive date-time without fraction. */
  function FormatDateTime(t: DateTime): (s: string)
    requires ValidDateTime(t)
    ensures |s| == 19
  {
    PadWidth(t.hour, 2);
    PadWidth(t.minute, 2);
    PadWidth(t.second, 2);
    FormatDate(t.date) + " " + PadNat(t.hour, 2) + ":" + PadNat(t.minute, 2) + ":" + PadNat(t.second, 2)
  }

  /** A date in the `YYYY-MM-DD` text form: four, two and two ASCII digits
      with dashes between them and nothing else. Pydantic also reads a date
      from other texts in lax mode; `LaxDate` adds the ones this model
      covers. */
  function IsoDate(s: string): (r: Option<Date>)
    ensures r.Some? ==> ValidDate(r.value)
  {
    if |s| == 10 && AllDigits(s[0..4]) && s[4] == '-' && AllDigits(s[5..7]) && s[7] == '-' && AllDigits(s[8..10]) then
      var d := Date(DigitsValue(s[0..4]), DigitsValue(s[5..7]), DigitsValue(s[8..10]));
      if ValidDate(d) then Some(d) else None
    else None
  }

  /** The date-time separators pydantic accepts between date and time. */
  predicate IsDateTimeSeparator(c: char) { c == 'T' || c == 't' || c == ' ' || c == '_' }

  /** The `YYYY-MM-DD HH:MM:SS` text pydantic reads into a `datetime`. */
  function IsoDateTime(s: string): (r: Option<DateTime>)
    ensures r.Some? ==> ValidDateTime(r.value)
  {
    if |s| == 19 && IsDateTimeSeparator(s[10]) && AllDigits(s[11..13]) && s[13] == ':'
       && AllDigits(s[14..16]) && s[16] == ':' && AllDigits(s[17..19]) then
      match IsoDate(s[..10])
      case None => None
      case Some(d) =>
        var t := DateTime(d, DigitsValue(s[11..13]), DigitsValue(s[14..16]), DigitsValue(s[17..19]));
        if ValidDateTime(t) then Some(t) else None
    else None
  }

  /** Formatting and then reading a date gives the date back. */
  lemma IsoDateOfFormat(d: Date)
    requires ValidDate(d)
    ensures IsoDate(FormatDate(d)) == Some(d)
  {
    var s := FormatDate(d);
    assert s[0..4] == PadNat(d.year, 4);
    assert s[5..7] == PadNat(d.month, 2);
    assert s[8..10] == PadNat(d.day, 2);
  }

  /** A date text that reads is the formatted form of its date. */
  lemma FormatOfIsoDate(s: string)
    requires IsoDate(s).Some?
    ensures FormatDate(IsoDate(s).value) == s
  {
    PadDigits(s[0..4]);
    PadDigits(s[5..7]);
    PadDigits(s[8..10]);
    assert s == s[0..4] + "-" + s[5..7] + "-" + s[8..10];
  }

  /** Formatting and then reading a date-time gives it back. */
  lemma IsoDateTimeOfFormat(t: DateTime)
    requires ValidDateTime(t)
    ensures IsoDateTime(FormatDateTime(t)) == Some(t)
  {
    var s := FormatDateTime(t);
    assert s[..10] == FormatDate(t.date);
    IsoDateOfFormat(t.date);
    assert s[11..13] == PadNat(t.hour, 2);
    assert s[14..16] == PadNat(t.minute, 2);
    assert s[17..19] == PadNat(t.second, 2);
  }

  /** A date-time whose time of day is exactly midnight. */
  predicate IsMidnight(t: DateTime) { t.hour == 0 && t.minute == 0 && t.second == 0 }

  /** What pydantic's lax date parser makes of a text: a date, a date-time
      that is not at midnight, or nothing it can read. */
  datatype DateReading = ReadDate(date: Date) | Inexact | Unreadable

  /** The date pydantic reads from a text in lax mode: a `YYYY-MM-DD` date,
      or else a `YYYY-MM-DD HH:MM:SS` date-time at exactly midnight, which
      gives its date. A date-time at any other time is inexact. */
  function LaxDate(s: string): (r: DateReading)
    ensures r.ReadDate? ==> ValidDate(r.date)
    ensures |s| != 19 ==> (r.ReadDate? <==> IsoDate(s).Some?) && (r.ReadDate? ==> r.date == IsoDate(s).value)
    ensures IsoDateTime(s).Some? ==> (r.ReadDate? <==> IsMidnight(IsoDateTime(s).value))
    ensures r.ReadDate? && IsoDate(s).None? ==> IsoDateTime(s).Some? && r.date == IsoDateTime(s).value.date
    ensures r.Inexact? <==> IsoDateTime(s).Some? && !IsMidnight(IsoDateTime(s).value)
  {
    if IsoDate(s).Some? then ReadDate(IsoDate(s).value)
    else match IsoDateTime(s)
      case Some(t) => if IsMidnight(t) then ReadDate(t.date) else Inexact
      case None => Unreadable
  }

  /** A formatted date-time reads as its date exactly when it is at
      midnight. */
  lemma LaxDateOfDateTime(t: DateTime)
    requires ValidDateTime(t)
    ensures LaxDate(FormatDateTime(t)) == if IsMidnight(t) then ReadDate(t.date) else Inexact
  {
    IsoDateTimeOfFormat(t);
  }

  // ----- the formats as datetime.strptime reads them -----

  /** `%m`: `1[0-2]|0[1-9]|[1-9]`. */
  predicate MonthToken(t: string)
  {
    (|t| == 1 && '1' <= t[0] <= '9')
    || (|t| == 2 && ((t[0] == '1' && '0' <= t[1] <= '2') || (t[0] == '0' && '1' <= t[1] <= '9')))
  }

  /** `%d`: `3[01]|[12]\d|0[1-9]|[1-9]| [1-9]`. */
  predicate DayToken(t: string)
  {
    (|t| == 1 && '1' <= t[0] <= '9')
    || (|t| == 2
        && ((t[0] == '3' && (t[1] == '0' || t[1] == '1'))
            || ((t[0] == '1' || t[0] == '2') && IsDigit(t[1]))
            || (t[0] == '0' && '1' <= t[1] <= '9')
            || (t[0] == ' ' && '1' <= t[1] <= '9')))
  }

  /** `%H`: `2[0-3]|[0-1]\d|\d`. */
  predicate HourToken(t: string)
  {
    (|t| == 1 && IsDigit(t[0]))
    || (|t| == 2 && ((t[0] == '2' && '0' <= t[1] <= '3') || ((t[0] == '0' || t[0] == '1') && IsDigit(t[1]))))
  }

  /** `%M`: `[0-5]\d|\d`. */
  predicate MinuteToken(t: string)
  {
    (|t| == 1 && IsDigit(t[0])) || (|t| == 2 && '0' <= t[0] <= '5' && IsDigit(t[1]))
  }

  /** `%S`: `6[0-1]|[0-5]\d|\d`; 60 and 61 match but no `datetime` holds them. */
  predicate SecondToken(t: string)
  {
    (|t| == 1 && IsDigit(t[0]))
    || (|t| == 2 && ((t[0] == '6' && '0' <= t[1] <= '1') || ('0' <= t[0] <= '5' && IsDigit(t[1]))))
  }

  /** The number `int` reads from a token of one or two characters: digits,
      or a blank and a digit. */
  function TokenValue(t: string): nat
    requires (|t| == 1 && IsDigit(t[0])) || (|t| == 2 && (IsDigit(t[0]) || t[0] == ' ') && IsDigit(t[1]))
  {
    if |t| == 1 then DigitValue(t[0])
    else (if t[0] == ' ' then 0 else 10 * DigitValue(t[0])) + DigitValue(t[1])
  }

  lemma TwoDigitsValue(t: string)
    requires |t| == 2 && AllDigits(t)
    ensures DigitsValue(t) == TokenValue(t)
  {
    assert t[..1][..0] == [];
    assert t[..1][0] == t[0];
    assert t[..|t| - 1] == t[..1];
    assert DigitsValue(t[..1]) == DigitValue(t[0]);
    assert DigitsValue(t) == DigitsValue(t[..1]) * 10 + DigitValue(t[1]);
  }

  /** The position of the first `c` in `s`. */
  function IndexOf(s: string, c: char): (r: Option<nat>)
    ensures r.Some? ==> r.value < |s| && s[r.value] == c && (forall j :: 0 <= j < r.value ==> s[j] != c)
    ensures r.None? ==> forall j :: 0 <= j < |s| ==> s[j] != c
  {
    if s == [] then None
    else if s[0] == c then Some(0)
    else match IndexOf(s[1..], c)
      case None => None
      case Some(k) => Some(k + 1)
  }

  /** The position of the first `\s` character of `s`. */
  function IndexOfSpace(s: string): (r: Option<nat>)
    ensures r.Some? ==> r.value < |s| && IsSpace(s[r.value]) && (forall j :: 0 <= j < r.value ==> !IsSpace(s[j]))
    ensures r.None? ==> forall j :: 0 <= j < |s| ==> !IsSpace(s[j])
  {
    if s == [] then None
    else if IsSpace(s[0]) then Some(0)
    else match IndexOfSpace(s[1..])
      case None => None
      case Some(k) => Some(k + 1)
  }

  /** The length of the run of `\s` characters `s` starts with. */
  function LeadingSpaces(s: string): (n: nat)
    ensures n <= |s|
    ensures forall j :: 0 <= j < n ==> IsSpace(s[j])
    ensures n < |s| ==> !IsSpace(s[n])
  {
    if s != [] && IsSpace(s[0]) then 1 + LeadingSpaces(s[1..]) else 0
  }

  function MakeDate(year: int, month: int, day: int): (r: Option<Date>)
    ensures r.Some? <==> ValidDate(Date(year, month, day))
    ensures r.Some? ==> r.value == Date(year, month, day)
  {
    if ValidDate(Date(year, month, day)) then Some(Date(year, month, day)) else None
  }

  /** The year, the month token and the rest after the second '-' of a text
      that starts like `%Y-%m-`. */
  function SplitYearMonth(s: string): Option<(nat, string, string)>
  {
    if |s| < 5 || !AllDigits(s[..4]) || s[4] != '-' then None
    else
      var rest := s[5..];
      match IndexOf(rest, '-')
      case None => None
      case Some(k) => Some((DigitsValue(s[..4]), rest[..k], rest[k + 1..]))
  }

  /** `datetime.strptime(s, "%Y-%m-%d")`: the date, or None where it raises
      `ValueError`. Month and day may be written with one digit, the day also
      as a blank and one digit. */
  function StrptimeDate(s: string): (r: Option<Date>)
    ensures r.Some? ==> ValidDate(r.value)
  {
    match SplitYearMonth(s)
    case None => None
    case Some((year, m, d)) =>
      if MonthToken(m) && DayToken(d) then MakeDate(year, TokenValue(m), TokenValue(d)) else None
  }

  /** The day token and the text after the `\s+` run that follows it. */
  function SplitDay(rest: string): Option<(string, string)>
  {
    var dayLength :=
      if |rest| >= 2 && rest[0] == ' ' then Some(2)
      else IndexOfSpace(rest);
    match dayLength
    case None => None
    case Some(k) =>
      if k > |rest| then None
      else
        var tail := rest[k..];
        var n := LeadingSpaces(tail);
        if n == 0 then None else Some((rest[..k], tail[n..]))
  }

  /** The hour, minute and second tokens of `H:M:S`. */
  function SplitClock(clock: string): Option<(string, string, string)>
  {
    match IndexOf(clock, ':')
    case None => None
    case Some(i) =>
      var rest := clock[i + 1..];
      match IndexOf(rest, ':')
      case None => None
      case Some(j) => Some((clock[..i], rest[..j], rest[j + 1..]))
  }

  /** The date-time the tokens denote, where `datetime` can hold it. */
  function MakeDateTime(year: int, m: string, d: string, h: string, mi: string, sec: string): (r: Option<DateTime>)
    ensures r.Some? ==> ValidDateTime(r.value)
  {
    if MonthToken(m) && DayToken(d) && HourToken(h) && MinuteToken(mi) && SecondToken(sec) then
      var t := DateTime(Date(year, TokenValue(m), TokenValue(d)), TokenValue(h), TokenValue(mi), TokenValue(sec));
      if ValidDateTime(t) then Some(t) else None
    else None
  }

  /** `datetime.strptime(s, "%Y-%m-%d %H:%M:%S")`: the date-time, or None
      where it raises `ValueError`. The blank in the format matches any run of
      `\s` characters. */
  function StrptimeTimestamp(s: string): (r: Option<DateTime>)
    ensures r.Some? ==> ValidDateTime(r.value)
  {
    match SplitYearMonth(s)
    case None => None
    case Some((year, m, rest)) =>
      match SplitDay(rest)
      case None => None
      case Some((d, clock)) =>
        match SplitClock(clock)
        case None => None
        case Some((h, mi, sec)) => MakeDateTime(year, m, d, h, mi, sec)
  }

  /** Every strict ISO date text is also read by `strptime`, as the same date. */
  lemma StrptimeReadsIsoDate(s: string)
    requires IsoDate(s).Some?
    ensures StrptimeDate(s) == IsoDate(s)
  {
    var rest := s[5..];
    assert rest[0] != '-' && rest[1] != '-' && rest[2] == '-';
    assert IndexOf(rest, '-') == Some(2);
    assert rest[..2] == s[5..7];
    assert rest[3..] == s[8..10];
    TwoDigitsValue(s[5..7]);
    TwoDigitsValue(s[8..10]);
  }

  /** A text `strptime` reads as a `%Y-%m-%d` date has at most ten
      characters, so it is never a date-time text. */
  lemma StrptimeDateLength(s: string)
    requires StrptimeDate(s).Some?
    ensures |s| <= 10
  {
    var rest := s[5..];
    var k := IndexOf(rest, '-').value;
    assert MonthToken(rest[..k]) && DayToken(rest[k + 1..]);
    assert |s| == 5 + k + 1 + |rest[k + 1..]|;
  }

  /** Years below 1000 are read too, from their four zero-padded digits. */
  lemma StrptimeReadsSmallYears()
    ensures StrptimeDate("0999-01-01") == Some(Date(999, 1, 1))
  {
    var s := "0999-01-01";
    assert DigitsValue(s[0..4]) == 999 by {
      assert s[0..4] == "0999";
      assert "0999"[..3] == "099";
      assert "099"[..2] == "09";
      assert "09"[..1] == "0";
      assert "0"[..0] == "";
    }
    assert DigitsValue(s[5..7]) == 1 by { assert s[5..7] == "01"; assert "01"[..1] == "0"; assert "0"[..0] == ""; }
    assert DigitsValue(s[8..10]) == 1 by { assert s[8..10] == "01"; assert "01"[..1] == "0"; assert "0"[..0] == ""; }
    assert IsoDate(s) == Some(Date(999, 1, 1));
    StrptimeReadsIsoDate(s);
  }

  /** The character positions of `YYYY-MM-DD HH:MM:SS`, with any one `\s`
      character between date and time. */
  predicate DateTimeShape(s: string)
  {
    && |s| == 19
    && IsDigit(s[0]) && IsDigit(s[1]) && IsDigit(s[2]) && IsDigit(s[3]) && s[4] == '-'
    && IsDigit(s[5]) && IsDigit(s[6]) && s[7] == '-' && IsDigit(s[8]) && IsDigit(s[9])
    && IsSpace(s[10]) && IsDigit(s[11]) && IsDigit(s[12]) && s[13] == ':'
    && IsDigit(s[14]) && IsDigit(s[15]) && s[16] == ':' && IsDigit(s[17]) && IsDigit(s[18])
  }

  lemma IsoDateTimeHasShape(s: string)
    requires IsoDateTime(s).Some? && s[10] == ' '
    ensures DateTimeShape(s)
    ensures IsoDate(s[..10]).Some?
  {
    var d10 := s[..10];
    assert d10[0..4][0] == s[0] && d10[0..4][1] == s[1] && d10[0..4][2] == s[2] && d10[0..4][3] == s[3];
    assert d10[5..7][0] == s[5] && d10[5..7][1] == s[6];
    assert d10[8..10][0] == s[8] && d10[8..10][1] == s[9];
    assert d10[4] == s[4] && d10[7] == s[7];
    assert s[11..13][0] == s[11] && s[11..13][1] == s[12];
    assert s[14..16][0] == s[14] && s[14..16][1] == s[15];
    assert s[17..19][0] == s[17] && s[17..19][1] == s[18];
  }

  lemma SplitsOfShape(s: string)
    requires DateTimeShape(s)
    ensures AllDigits(s[..4])
    ensures SplitYearMonth(s) == Some((DigitsValue(s[..4]), s[5..7], s[8..]))
    ensures SplitDay(s[8..]) == Some((s[8..10], s[11..]))
    ensures SplitClock(s[11..]) == Some((s[11..13], s[14..16], s[17..19]))
  {
    SplitYearMonthOfShape(s);
    SplitDayOfShape(s);
    SplitClockOfShape(s);
  }

  lemma SplitYearMonthOfShape(s: string)
    requires DateTimeShape(s)
    ensures AllDigits(s[..4])
    ensures SplitYearMonth(s) == Some((DigitsValue(s[..4]), s[5..7], s[8..]))
  {
    var rest := s[5..];
    assert rest[0] != '-' && rest[1] != '-' && rest[2] == '-';
    assert IndexOf(rest, '-') == Some(2);
    assert rest[..2] == s[5..7] && rest[3..] == s[8..];
  }

  lemma SplitDayOfShape(s: string)
    requires DateTimeShape(s)
    ensures SplitDay(s[8..]) == Some((s[8..10], s[11..]))
  {
    var r2 := s[8..];
    assert !IsSpace(r2[0]) && !IsSpace(r2[1]) && IsSpace(r2[2]);
    assert IndexOfSpace(r2) == Some(2);
    var tail := r2[2..];
    assert !IsSpace(tail[1]);
    assert LeadingSpaces(tail) == 1;
    assert r2[..2] == s[8..10] && tail[1..] == s[11..];
  }

  lemma SplitClockOfShape(s: string)
    requires DateTimeShape(s)
    ensures SplitClock(s[11..]) == Some((s[11..13], s[14..16], s[17..19]))
  {
    var clock := s[11..];
    assert clock[0] != ':' && clock[1] != ':' && clock[2] == ':';
    assert IndexOf(clock, ':') == Some(2);
    var rest2 := clock[3..];
    assert rest2[0] != ':' && rest2[1] != ':' && rest2[2] == ':';
    assert IndexOf(rest2, ':') == Some(2);
    assert clock[..2] == s[11..13];
    assert rest2[..2] == s[14..16];
    assert rest2[3..] == s[17..19];
  }

  lemma TokensOfIsoDateTime(s: string)
    requires IsoDateTime(s).Some? && s[10] == ' '
    ensures DateTimeShape(s)
    ensures MakeDateTime(DigitsValue(s[..4]), s[5..7], s[8..10], s[11..13], s[14..16], s[17..19]) == IsoDateTime(s)
  {
    IsoDateTimeHasShape(s);
    var t := IsoDateTime(s).value;
    var d10 := s[..10];
    assert d10[0..4] == s[..4] && d10[5..7] == s[5..7] && d10[8..10] == s[8..10];
    TwoDigitsValue(s[5..7]);
    TwoDigitsValue(s[8..10]);
    TwoDigitsValue(s[11..13]);
    TwoDigitsValue(s[14..16]);
    TwoDigitsValue(s[17..19]);
    assert t.date == Date(DigitsValue(s[..4]), TokenValue(s[5..7]), TokenValue(s[8..10]));
    assert t.hour == TokenValue(s[11..13]) && t.minute == TokenValue(s[14..16]) && t.second == TokenValue(s[17..19]);
  }

  /** A strict ISO date-time text with a blank separator is also read by
      `strptime`, as the same date-time. */
  lemma StrptimeReadsIsoDateTime(s: string)
    requires IsoDateTime(s).Some? && s[10] == ' '
    ensures StrptimeTimestamp(s) == IsoDateTime(s)
  {
    TokensOfIsoDateTime(s);
    SplitsOfShape(s);
  }

  /** The blank of the format matches any `\s` character: with the blank
      of a date-time text replaced by, say, a no-break space, `strptime`
      reads the same date-time. */
  lemma StrptimeTakesUnicodeSpace(s: string, c: char)
    requires IsoDateTime(s).Some? && s[10] == ' ' && IsSpace(c)
    ensures StrptimeTimestamp(s[..10] + [c] + s[11..]) == IsoDateTime(s)
  {
    var u := s[..10] + [c] + s[11..];
    TokensOfIsoDateTime(s);
    assert |u| == 19 && u[10] == c;
    assert forall i :: 0 <= i < 19 && i != 10 ==> u[i] == s[i];
    assert u[..4] == s[..4] && u[5..7] == s[5..7] && u[8..10] == s[8..10];
    assert u[11..13] == s[11..13] && u[14..16] == s[14..16] && u[17..19] == s[17..19];
    SplitsOfShape(u);
  }

  /** One-digit months and days are read by `strptime` but are not ISO text. */
  lemma UnpaddedDate()
    ensures StrptimeDate("2024-2-29") == Some(Date(2024, 2, 29))
    ensures IsoDate("2024-2-29") == None
  {
    var s := "2024-2-29";
    assert s[..4] == "2024";
    assert DigitsValue("2024") == 2024 by {
      assert "2024"[..3] == "202";
      assert "202"[..2] == "20";
      assert "20"[..1] == "2";
      assert "2"[..0] == "";
    }
    assert IndexOf(s[5..], '-') == Some(1);
    assert s[5..][..1] == "2";
    assert s[5..][2..] == "29";
    assert DigitsValue("29") == 29 by { assert "29"[..1] == "2"; assert "2"[..0] == ""; }
    assert DigitsValue("2") == 2 by { assert "2"[..0] == ""; }
  }
}
