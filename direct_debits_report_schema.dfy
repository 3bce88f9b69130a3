/** The header of a direct-debits report, which covers one month. */
module DirectDebitsReportSchema {
  import opened Wrappers
  import opened Calendar
  import opened Json
  import opened FieldValidationFunctions
  import opened Pydantic
  import opened DirectDebitsEnums
  import opened BaseReportSchema

  /** `validate_period`: the `%Y-%m-%d` check first, whose result is
      discarded, and then the month-end check, whose result is kept. */
  function ValidateMonthPeriod(v: Value): (r: Result<string, string>)
    ensures r.Success? <==> v.Str? && StrptimeDate(v.s).Some? && IsMonthEnd(StrptimeDate(v.s))
    ensures r.Success? ==> r.value == v.s
    ensures ValidateDate(v).Failure? ==> r == Failure(ValidateDate(v).error)
  {
    match ValidateDate(v)
    case Failure(e) => Failure(e)
    case Success(_) => ValidateLastDayOfMonth(v)
  }

  /** On an ISO date the period check accepts exactly the last day of the
      month. */
  lemma MonthPeriodOnIsoDates(s: string)
    requires IsoDate(s).Some?
    ensures var d := IsoDate(s).value;
      ValidateMonthPeriod(Str(s)).Success? <==> d.day == DaysInMonth(d.year, d.month)
  {
    StrptimeReadsIsoDate(s);
  }

  const DirectDebitsReportFields: seq<Field> := BaseReportFields + [
    Field("schema_version", Literal(SchemaVersion), true),
    Field("reported_payment_type", StrEnum(PaymentTypeDirectDebits), true),
    Field("period", PastDate(Some(ValidateMonthPeriod)), true)
  ]

  datatype DirectDebitsReport = DirectDebitsReport(
    base: BaseReport,
    schemaVersion: string,
    reportedPaymentType: string,
    period: Day)

  function DirectDebitsReportOf(m: map<string, Typed>): DirectDebitsReport
  {
    DirectDebitsReport(BaseReportOf(m), StrAt(m, "schema_version"), StrAt(m, "reported_payment_type"), DateAt(m, "period"))
  }

  function ValidateDirectDebitsReport(env: Env, v: Value): (r: Outcome<DirectDebitsReport>)
  {
    ParseWith(env, DirectDebitsReportFields, v, DirectDebitsReportOf)
  }

  lemma FieldsAt()
    ensures DirectDebitsReportFields[..5] == BaseReportFields
    ensures DirectDebitsReportFields[5] == Field("schema_version", Literal(SchemaVersion), true)
    ensures DirectDebitsReportFields[6] == Field("reported_payment_type", StrEnum(PaymentTypeDirectDebits), true)
    ensures DirectDebitsReportFields[7] == Field("period", PastDate(Some(ValidateMonthPeriod)), true)
    ensures FirstNamed(DirectDebitsReportFields, 5) && FirstNamed(DirectDebitsReportFields, 6)
    ensures FirstNamed(DirectDebitsReportFields, 7)
  {
  }

  /** A validated header is of schema version 1.0 and reports direct
      debits. */
  lemma ValidatedHeader(env: Env, v: Value)
    requires ValidateFields(env, DirectDebitsReportFields, v).Valid?
    ensures var r := DirectDebitsReportOf(ValidateFields(env, DirectDebitsReportFields, v).value);
      r.schemaVersion == SchemaVersion && r.reportedPaymentType == "DD"
  {
    FieldsAt();
    ValidLiteral(env, DirectDebitsReportFields, v, 5);
    ValidStrEnum(env, DirectDebitsReportFields, v, 6);
  }

  /** The period of a validated header is the last day of a month before
      today. */
  lemma ValidatedPeriod(env: Env, v: Value)
    requires ValidateFields(env, DirectDebitsReportFields, v).Valid?
    ensures var d := DirectDebitsReportOf(ValidateFields(env, DirectDebitsReportFields, v).value).period;
      DateBefore(d, env.today) && d.day == DaysInMonth(d.year, d.month)
  {
    FieldsAt();
    ValidPastDate(env, DirectDebitsReportFields, v, 7);
    StrptimeDateLength(Lookup(v.members, "period").value.s);
    MonthPeriodOnIsoDates(Lookup(v.members, "period").value.s);
  }
}
