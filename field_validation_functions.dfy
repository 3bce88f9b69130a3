/** The reusable field validators (utils/field_validaton_functions.py).
    Each returns the value pydantic keeps, or fails with the text of the
    `ValueError` it raises. The code lists are parameters: the real ones
    are fixed tables (ISO 3166-1 alpha-2 and ISO 4217 keys, SNI codes,
    merchant category codes, postal localities). */
module FieldValidationFunctions {
  import opened Wrappers
  import opened Text
  import opened Calendar
  import opened Json

  datatype CodeLists = CodeLists(
    country: set<string>,
    currency: set<string>,
    sniCodes: set<string>,
    merchantCategoryCodes: set<string>,
    localities: set<string>)

  /** The shape shared by the code-list validators: the upper-cased input
      when it is in the list, the given error message otherwise. */
  function ValidateCode(codes: set<string>, v: string, message: string): (r: Result<string, string>)
    ensures r.Success? <==> Upper(v) in codes
    ensures r.Success? ==> r.value == Upper(v) && r.value in codes && NoLower(r.value)
    ensures r.Failure? ==> r.error == message
  {
    UpperNormalizes(v);
    if Upper(v) in codes then Success(Upper(v)) else Failure(message)
  }

  /** A code the validator accepted is accepted again unchanged, so
      validating twice is validating once. */
  lemma ValidateCodeIdempotent(codes: set<string>, v: string, message: string, message': string)
    requires ValidateCode(codes, v, message).Success?
    ensures ValidateCode(codes, ValidateCode(codes, v, message).value, message') == ValidateCode(codes, v, message)
  {
    UpperNormalizes(v);
  }

  /** The validator does not distinguish a code from its upper-case form. */
  lemma ValidateCodeIgnoresCase(codes: set<string>, v: string, message: string, message': string)
    ensures ValidateCode(codes, v, message).Success? <==> ValidateCode(codes, Upper(v), message').Success?
    ensures ValidateCode(codes, v, message).Success? ==> ValidateCode(codes, v, message) == ValidateCode(codes, Upper(v), message')
  {
    UpperNormalizes(v);
  }

  function ValidateCurrency(currency: set<string>, v: string): (r: Result<string, string>)
    ensures r.Success? <==> Upper(v) in currency
    ensures r.Success? ==> r.value == Upper(v)
    ensures r.Failure? ==> r.error == "Currency code is incorrect. Got " + v + ", expected ISO 4217-1 alpha-3 currency code."
  {
    ValidateCode(currency, v, "Currency code is incorrect. Got " + v + ", expected ISO 4217-1 alpha-3 currency code.")
  }

  function ValidateCountry(country: set<string>, v: string): (r: Result<string, string>)
    ensures r.Success? <==> Upper(v) in country
    ensures r.Success? ==> r.value == Upper(v)
    ensures r.Failure? ==> r.error == "Country code is incorrect. Got " + v + ", expected ISO 3166-1 alpha-2 country code."
  {
    ValidateCode(country, v, "Country code is incorrect. Got " + v + ", expected ISO 3166-1 alpha-2 country code.")
  }

  function ValidateSniCode(sniCodes: set<string>, v: string): (r: Result<string, string>)
    ensures r.Success? <==> Upper(v) in sniCodes
    ensures r.Success? ==> r.value == Upper(v)
    ensures r.Failure? ==> r.error == "Sni code is incorrect. Got " + v + "."
  {
    ValidateCode(sniCodes, v, "Sni code is incorrect. Got " + v + ".")
  }

  function ValidateMerchantCategoryCode(merchantCategoryCodes: set<string>, v: string): (r: Result<string, string>)
    ensures r.Success? <==> Upper(v) in merchantCategoryCodes
    ensures r.Success? ==> r.value == Upper(v)
    ensures r.Failure? ==> r.error == "Merchant category code is incorrect. Got " + v + "."
  {
    ValidateCode(merchantCategoryCodes, v, "Merchant category code is incorrect. Got " + v + ".")
  }

  /** An empty locality passes unchanged; any other must be in the list as
      written, and comes back upper-cased. */
  function ValidateLocality(localities: set<string>, v: string): (r: Result<string, string>)
    ensures v == "" ==> r == Success("")
    ensures v != "" ==> (r.Success? <==> v in localities)
    ensures v != "" && r.Success? ==> r.value == Upper(v)
    ensures r.Failure? ==> r.error == "Locality is in incorrect. Got " + v + "."
  {
    if v == "" then Success(v)
    else if v in localities then Success(Upper(v))
    else Failure("Locality is in incorrect. Got " + v + ".")
  }

  /** Membership is checked before upper-casing, so a list holding a
      mixed-case name accepts that name, returns its upper-case form, and
      rejects the upper-case form when it is given. */
  lemma LocalityNotIdempotent()
    ensures ValidateLocality({"Kiruna"}, "Kiruna") == Success("KIRUNA")
    ensures ValidateLocality({"Kiruna"}, "KIRUNA").Failure?
  {
    assert Upper("Kiruna") == "KIRUNA";
    assert "KIRUNA" != "Kiruna" by { assert "KIRUNA"[1] != "Kiruna"[1]; }
  }

  /** Upper-casing follows Unicode, not ASCII: `Luleå` comes back as
      `LULEÅ`. */
  lemma LocalityUpperCasesNonAscii()
    ensures ValidateLocality({"Lule\U{E5}"}, "Lule\U{E5}") == Success("LULE\U{C5}")
  {
    assert Upper("Lule\U{E5}") == "LULE\U{C5}";
  }

  /** A code is found through its upper-case form, which may differ from a
      letter-by-letter ASCII mapping: the long s `ſ` becomes `S`, so `ſek`
      is the currency `SEK`. */
  lemma CurrencyFoldsLongS()
    ensures ValidateCurrency({"SEK"}, "\U{17F}ek") == Success("SEK")
  {
    assert Upper("\U{17F}ek") == "SEK";
  }

  /** How a Python validator call ends: with a value, with a `ValueError`
      (which pydantic turns into a validation error), or with another
      exception (which escapes pydantic and aborts the whole validation). */
  datatype Raised<T> = Returned(value: T) | ValueError(message: string) | OtherError(exception: string)

  function Lift<T>(r: Result<T, string>): Raised<T>
  {
    match r
    case Success(x) => Returned(x)
    case Failure(m) => ValueError(m)
  }

  /** The before-mode validators built on `strptime` call it on the raw
      input, which raises `TypeError` for anything but a string; only
      `validate_timestamp` lets `None` through first. As written, that
      exception escapes. */
  function BeforeAsWritten<T>(v: Value, corrected: Result<T, string>, passesNull: bool): (r: Raised<T>)
    ensures v.Str? || (passesNull && v.Null?) ==> r == Lift(corrected)
    ensures !(v.Str? || (passesNull && v.Null?)) ==> r.OtherError?
  {
    if v.Str? || (passesNull && v.Null?) then Lift(corrected)
    else OtherError("TypeError: strptime() argument 1 must be str, not " + PythonTypeWord(v))
  }

  function PythonTypeWord(v: Value): string
  {
    match v
    case Null => "None"
    case Bool(_) => "bool"
    case Int(_) => "int"
    case Num(_) => "float"
    case Str(_) => "str"
    case Arr(_) => "list"
    case Obj(_) => "dict"
  }

  /** `validate_date`: the text unchanged when `strptime` reads it with
      `%Y-%m-%d`; any other input is reported with its type, as the
      message of the source intends. */
  function ValidateDate(v: Value): (r: Result<string, string>)
    ensures r.Success? <==> v.Str? && StrptimeDate(v.s).Some?
    ensures r.Success? ==> r.value == v.s
    ensures r.Failure? ==> r.error == "Date has to be in format '%Y-%m-%d', got " + TypeName(v) + ": " + Render(v)
  {
    if v.Str? && StrptimeDate(v.s).Some? then Success(v.s)
    else Failure("Date has to be in format '%Y-%m-%d', got " + TypeName(v) + ": " + Render(v))
  }

  /** `validate_date` as written: a non-string input makes `strptime` raise
      `TypeError`, which the `except ValueError` does not catch. */
  function ValidateDateAsWritten(v: Value): (r: Raised<string>)
    ensures v.Str? ==> r == Lift(ValidateDate(v))
    ensures !v.Str? ==> r.OtherError?
  {
    BeforeAsWritten(v, ValidateDate(v), false)
  }

  /** `validate_timestamp`: None unchanged, otherwise the text unchanged when
      `strptime` reads it with `%Y-%m-%d %H:%M:%S`. */
  function ValidateTimestamp(v: Value): (r: Result<Option<string>, string>)
    ensures v.Null? ==> r == Success(None)
    ensures !v.Null? ==> (r.Success? <==> v.Str? && StrptimeTimestamp(v.s).Some?)
    ensures r.Success? && !v.Null? ==> r.value == Some(v.s)
    ensures r.Failure? ==>
      r.error == "Timestamp has to be in format '%Y-%m-%d %H:%M:%S' got " + TypeName(v) + ": " + Render(v)
  {
    if v.Null? then Success(None)
    else if v.Str? && StrptimeTimestamp(v.s).Some? then Success(Some(v.s))
    else Failure("Timestamp has to be in format '%Y-%m-%d %H:%M:%S' got " + TypeName(v) + ": " + Render(v))
  }

  function ValidateTimestampAsWritten(v: Value): (r: Raised<Option<string>>)
    ensures v.Str? || v.Null? ==> r == Lift(ValidateTimestamp(v))
    ensures !(v.Str? || v.Null?) ==> r.OtherError?
  {
    BeforeAsWritten(v, ValidateTimestamp(v), true)
  }

  /** `^\d{4}-(<one of ends>)$` as `re.match` applies it: `\d` is any
      Unicode decimal digit, and `$` also matches just before a final line
      feed. */
  predicate PeriodPattern(v: string, ends: set<string>)
  {
    (|v| == 10 && PeriodBody(v, ends)) || (|v| == 11 && v[10] == '\n' && PeriodBody(v[..10], ends))
  }

  predicate PeriodBody(t: string, ends: set<string>)
    requires |t| == 10
  {
    AllDecimalDigits(t[..4]) && t[4] == '-' && t[5..] in ends
  }

  const HalfYearEnds: set<string> := {"06-30", "12-31"}
  const QuarterEnds: set<string> := {"03-31", "06-30", "09-30", "12-31"}

  function ValidateHalfYear(v: Value): (r: Result<string, string>)
    ensures r.Success? <==> v.Str? && PeriodPattern(v.s, HalfYearEnds)
    ensures r.Success? ==> r.value == v.s
    ensures r.Failure? ==> r.error == "The period should be one of YYYY-06-30 and YYYY-12-31. Got " + Render(v) + "."
  {
    if v.Str? && PeriodPattern(v.s, HalfYearEnds) then Success(v.s)
    else Failure("The period should be one of YYYY-06-30 and YYYY-12-31. Got " + Render(v) + ".")
  }

  function ValidateQuarterly(v: Value): (r: Result<string, string>)
    ensures r.Success? <==> v.Str? && PeriodPattern(v.s, QuarterEnds)
    ensures r.Success? ==> r.value == v.s
    ensures r.Failure? ==> r.error == "The period should be the last day in the reported quarter. Got " + Render(v) + "."
  {
    if v.Str? && PeriodPattern(v.s, QuarterEnds) then Success(v.s)
    else Failure("The period should be the last day in the reported quarter. Got " + Render(v) + ".")
  }

  /** `\d` of `re` takes any decimal digit, so a year written in
      Arabic-Indic digits passes the half-year check. */
  lemma HalfYearTakesUnicodeDigits()
    ensures ValidateHalfYear(Str("\U{662}\U{660}\U{662}\U{664}-06-30")).Success?
  {
    var t := "\U{662}\U{660}\U{662}\U{664}-06-30";
    assert t[..4] == "\U{662}\U{660}\U{662}\U{664}" && t[5..] == "06-30";
    forall i | 0 <= i < 4 ensures IsDecimalDigit(t[..4][i]) {
      assert DecimalZeros[1] <= t[..4][i] as int < DecimalZeros[1] + 10;
    }
  }

  predicate IsMonthEnd(d: Option<Date>)
  {
    d.Some? && 1 <= d.value.month <= 12 && d.value.day == DaysInMonth(d.value.year, d.value.month)
  }

  /** `validate_last_day_of_month`: the text unchanged when it reads as the
      last day of its month. Where `strptime` itself fails, its own
      `ValueError` escapes. Those two failure texts are only approximations
      of Python's: they lack its quotes around the text and its
      `unconverted data remains` and `day is out of range for month`
      variants. No schema reaches them, because the direct-debit period
      runs `validate_date` first (`DirectDebitsReportSchema.ValidateMonthPeriod`). */
  function ValidateLastDayOfMonth(v: Value): (r: Result<string, string>)
    ensures r.Success? <==> v.Str? && IsMonthEnd(StrptimeDate(v.s))
    ensures r.Success? ==> r.value == v.s
    ensures v.Str? && StrptimeDate(v.s).Some? && r.Failure? ==> r.error == "Date is not the last day of month, got " + v.s + "."
  {
    if !v.Str? then Failure("time data " + Render(v) + " does not match format '%Y-%m-%d'")
    else match StrptimeDate(v.s)
      case None => Failure("time data " + v.s + " does not match format '%Y-%m-%d'")
      case Some(d) =>
        if d.day != DaysInMonth(d.year, d.month) then Failure("Date is not the last day of month, got " + v.s + ".")
        else Success(v.s)
  }

  /** On a date written in ISO form the half-year check accepts exactly
      June 30th and December 31st. */
  lemma HalfYearOnDates(d: Date)
    requires ValidDate(d)
    ensures ValidateHalfYear(Str(FormatDate(d))).Success? <==> (d.month == 6 && d.day == 30) || (d.month == 12 && d.day == 31)
  {
    IsoDateOfFormat(d);
    HalfYearOnIsoDates(FormatDate(d));
  }

  lemma HalfYearOnIsoDates(s: string)
    requires IsoDate(s).Some?
    ensures var d := IsoDate(s).value;
      ValidateHalfYear(Str(s)).Success? <==> (d.month == 6 && d.day == 30) || (d.month == 12 && d.day == 31)
  {
    var t := s[5..];
    assert ValidateHalfYear(Str(s)).Success? <==> t == "06-30" || t == "12-31" by {
      assert s[..4] == s[0..4];
      AsciiDigitsAreDecimal(s[..4]);
    }
    MonthDayOfIsoDate(s);
    MonthDayTexts(t);
  }

  /** On a date written in ISO form the quarter check accepts exactly the
      last day of March, June, September and December. */
  lemma QuarterlyOnDates(d: Date)
    requires ValidDate(d)
    ensures ValidateQuarterly(Str(FormatDate(d))).Success?
        <==> d.month % 3 == 0 && d.day == DaysInMonth(d.year, d.month)
  {
    IsoDateOfFormat(d);
    QuarterlyOnIsoDates(FormatDate(d));
  }

  lemma QuarterlyOnIsoDates(s: string)
    requires IsoDate(s).Some?
    ensures var d := IsoDate(s).value;
      ValidateQuarterly(Str(s)).Success? <==> d.month % 3 == 0 && d.day == DaysInMonth(d.year, d.month)
  {
    var d := IsoDate(s).value;
    QuarterlyOnMonthDay(s);
    MonthDayOfIsoDate(s);
    MonthDayTexts(s[5..]);
    QuarterEndDays(d.year, d.month, d.day);
  }

  /** On an ISO date the quarterly check reads only the `MM-DD` part. */
  lemma QuarterlyOnMonthDay(s: string)
    requires IsoDate(s).Some?
    ensures ValidateQuarterly(Str(s)).Success? <==> s[5..] in QuarterEnds
  {
    assert s[..4] == s[0..4];
    AsciiDigitsAreDecimal(s[..4]);
  }

  /** The `MM-DD` part of an ISO date, digit by digit. */
  lemma MonthDayOfIsoDate(s: string)
    requires IsoDate(s).Some?
    ensures |s[5..]| == 5 && s[5..][2] == '-'
    ensures IsDigit(s[5..][0]) && IsDigit(s[5..][1]) && IsDigit(s[5..][3]) && IsDigit(s[5..][4])
    ensures IsoDate(s).value.month == 10 * DigitValue(s[5..][0]) + DigitValue(s[5..][1])
    ensures IsoDate(s).value.day == 10 * DigitValue(s[5..][3]) + DigitValue(s[5..][4])
  {
    TwoDigitsValue(s[5..7]);
    TwoDigitsValue(s[8..10]);
  }

  /** Which `MM-DD` texts the period patterns list, by month and day. */
  lemma MonthDayTexts(t: string)
    requires |t| == 5 && t[2] == '-' && IsDigit(t[0]) && IsDigit(t[1]) && IsDigit(t[3]) && IsDigit(t[4])
    ensures var month, day := 10 * DigitValue(t[0]) + DigitValue(t[1]), 10 * DigitValue(t[3]) + DigitValue(t[4]);
      && (t == "03-31" <==> month == 3 && day == 31)
      && (t == "06-30" <==> month == 6 && day == 30)
      && (t == "09-30" <==> month == 9 && day == 30)
      && (t == "12-31" <==> month == 12 && day == 31)
  {
    TextIs(t, "03-31");
    TextIs(t, "06-30");
    TextIs(t, "09-30");
    TextIs(t, "12-31");
  }

  lemma TextIs(t: string, text: string)
    requires |t| == 5 && |text| == 5
    ensures t == text <==> t[0] == text[0] && t[1] == text[1] && t[2] == text[2] && t[3] == text[3] && t[4] == text[4]
  {
    if t[0] == text[0] && t[1] == text[1] && t[2] == text[2] && t[3] == text[3] && t[4] == text[4] {
      assert forall i | 0 <= i < 5 :: t[i] == text[i];
    }
  }

  lemma QuarterEndDays(year: int, month: nat, day: nat)
    requires 1 <= month <= 12
    ensures (month == 3 && day == 31) || (month == 6 && day == 30) || (month == 9 && day == 30) || (month == 12 && day == 31)
        <==> month % 3 == 0 && day == DaysInMonth(year, month)
  {
  }

  /** On a date written in ISO form the month-end check accepts exactly the
      last day of the month. */
  lemma LastDayOfMonthOnDates(d: Date)
    requires ValidDate(d)
    ensures ValidateLastDayOfMonth(Str(FormatDate(d))).Success? <==> d.day == DaysInMonth(d.year, d.month)
  {
    IsoDateOfFormat(d);
    StrptimeReadsIsoDate(FormatDate(d));
  }

  /** February 29th is a month end exactly in leap years, and February 28th
      exactly in the other years. */
  lemma FebruaryMonthEnd(year: int)
    requires MinYear <= year <= MaxYear
    ensures IsLeapYear(year) ==> ValidateLastDayOfMonth(Str(FormatDate(Date(year, 2, 29)))).Success?
    ensures IsLeapYear(year) ==> ValidateLastDayOfMonth(Str(FormatDate(Date(year, 2, 28)))).Failure?
    ensures !IsLeapYear(year) ==> ValidateLastDayOfMonth(Str(FormatDate(Date(year, 2, 28)))).Success?
  {
    LastDayOfMonthOnDates(Date(year, 2, 28));
    if IsLeapYear(year) {
      LastDayOfMonthOnDates(Date(year, 2, 29));
    }
  }

  /** The trailing line feed `$` lets through is not a date. */
  lemma HalfYearAcceptsTrailingNewline()
    ensures ValidateHalfYear(Str("2025-06-30\n")).Success?
    ensures IsoDate("2025-06-30\n").None?
  {
    var v := "2025-06-30\n";
    assert v[..10] == "2025-06-30";
    assert v[..10][..4] == "2025";
    AsciiDigitsAreDecimal("2025");
    assert v[..10][5..] == "06-30";
  }
}
