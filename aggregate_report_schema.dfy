/** The header of a report of aggregated items (e-money, money
    remittances, cash over the counter, payment initiation services). */
module AggregateReportSchema {
  import opened Wrappers
  import opened Calendar
  import opened Json
  import opened FieldValidationFunctions
  import opened Pydantic
  import opened AggregatesEnums
  import opened BaseReportSchema

  const AggregateReportFields: seq<Field> := BaseReportFields + [
    Field("schema_version", Literal(SchemaVersion), true),
    Field("date_from", PastDate(Some(ValidateDate)), true),
    Field("date_to", PastDate(Some(ValidateDate)), true),
    Field("reported_payment_type", StrEnum(PaymentTypeAggregates), true)
  ]

  datatype AggregateReport = AggregateReport(
    base: BaseReport,
    schemaVersion: string,
    dateFrom: Day,
    dateTo: Day,
    reportedPaymentType: string)

  function AggregateReportOf(m: map<string, Typed>): AggregateReport
  {
    AggregateReport(BaseReportOf(m), StrAt(m, "schema_version"), DateAt(m, "date_from"), DateAt(m, "date_to"),
                    StrAt(m, "reported_payment_type"))
  }

  /** The header has no model validator: in particular it never compares
      `date_from` with `date_to`. */
  function ValidateAggregateReport(env: Env, v: Value): (r: Outcome<AggregateReport>)
  {
    ParseWith(env, AggregateReportFields, v, AggregateReportOf)
  }

  lemma FieldsAt()
    ensures AggregateReportFields[..5] == BaseReportFields
    ensures AggregateReportFields[5] == Field("schema_version", Literal(SchemaVersion), true)
    ensures AggregateReportFields[6] == Field("date_from", PastDate(Some(ValidateDate)), true)
    ensures AggregateReportFields[7] == Field("date_to", PastDate(Some(ValidateDate)), true)
    ensures AggregateReportFields[8] == Field("reported_payment_type", StrEnum(PaymentTypeAggregates), true)
    ensures FirstNamed(AggregateReportFields, 5) && FirstNamed(AggregateReportFields, 6)
    ensures FirstNamed(AggregateReportFields, 7) && FirstNamed(AggregateReportFields, 8)
  {
  }

  /** A validated header is of schema version 1.0 and reports one of the
      five aggregate payment types. */
  lemma ValidatedHeader(env: Env, v: Value)
    requires ValidateFields(env, AggregateReportFields, v).Valid?
    ensures var r := AggregateReportOf(ValidateFields(env, AggregateReportFields, v).value);
      r.schemaVersion == SchemaVersion && r.reportedPaymentType in PaymentTypeAggregates
  {
    FieldsAt();
    ValidLiteral(env, AggregateReportFields, v, 5);
    ValidStrEnum(env, AggregateReportFields, v, 8);
  }

  /** Both ends of the period were written as `%Y-%m-%d` dates and lie
      before today. */
  lemma ValidatedDates(env: Env, v: Value)
    requires ValidateFields(env, AggregateReportFields, v).Valid?
    ensures var r := AggregateReportOf(ValidateFields(env, AggregateReportFields, v).value);
      DateBefore(r.dateFrom, env.today) && DateBefore(r.dateTo, env.today)
      && Lookup(v.members, "date_from").Some? && ValidateDate(Lookup(v.members, "date_from").value).Success?
      && Lookup(v.members, "date_to").Some? && ValidateDate(Lookup(v.members, "date_to").value).Success?
  {
    FieldsAt();
    ValidPastDate(env, AggregateReportFields, v, 6);
    ValidPastDate(env, AggregateReportFields, v, 7);
  }
}
