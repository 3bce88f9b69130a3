/** The header of a payment-system operators' report, which covers one
    quarter and one metric. */
module PaymentSystemOperatorsReportSchema {
  import opened Wrappers
  import opened Calendar
  import opened Json
  import opened FieldValidationFunctions
  import opened Pydantic
  import opened FullEnums
  import opened BaseReportSchema

  const PaymentSystemOperatorsReportFields: seq<Field> := BaseReportFields + [
    Field("schema_version", Literal(SchemaVersion), true),
    Field("period", PastDate(Some(ValidateQuarterly)), true),
    Field("reported_payment_system_metric", StrEnum(PaymentSystemMetric), true)
  ]

  datatype PaymentSystemOperatorsReport = PaymentSystemOperatorsReport(
    base: BaseReport,
    schemaVersion: string,
    period: Day,
    reportedPaymentSystemMetric: string)

  function PaymentSystemOperatorsReportOf(m: map<string, Typed>): PaymentSystemOperatorsReport
  {
    PaymentSystemOperatorsReport(BaseReportOf(m), StrAt(m, "schema_version"), DateAt(m, "period"),
                                 StrAt(m, "reported_payment_system_metric"))
  }

  function ValidatePaymentSystemOperatorsReport(env: Env, v: Value): (r: Outcome<PaymentSystemOperatorsReport>)
  {
    ParseWith(env, PaymentSystemOperatorsReportFields, v, PaymentSystemOperatorsReportOf)
  }

  lemma FieldsAt()
    ensures PaymentSystemOperatorsReportFields[..5] == BaseReportFields
    ensures PaymentSystemOperatorsReportFields[5] == Field("schema_version", Literal(SchemaVersion), true)
    ensures PaymentSystemOperatorsReportFields[6] == Field("period", PastDate(Some(ValidateQuarterly)), true)
    ensures PaymentSystemOperatorsReportFields[7] == Field("reported_payment_system_metric", StrEnum(PaymentSystemMetric), true)
    ensures FirstNamed(PaymentSystemOperatorsReportFields, 5) && FirstNamed(PaymentSystemOperatorsReportFields, 6)
    ensures FirstNamed(PaymentSystemOperatorsReportFields, 7)
  {
  }

  /** A validated header is of schema version 1.0 and reports one of the
      three metrics. */
  lemma ValidatedHeader(env: Env, v: Value)
    requires ValidateFields(env, PaymentSystemOperatorsReportFields, v).Valid?
    ensures var r := PaymentSystemOperatorsReportOf(ValidateFields(env, PaymentSystemOperatorsReportFields, v).value);
      r.schemaVersion == SchemaVersion && r.reportedPaymentSystemMetric in PaymentSystemMetric
  {
    FieldsAt();
    ValidLiteral(env, PaymentSystemOperatorsReportFields, v, 5);
    ValidStrEnum(env, PaymentSystemOperatorsReportFields, v, 7);
  }

  /** The period of a validated header is the last day of a quarter
      before today. */
  lemma ValidatedPeriod(env: Env, v: Value)
    requires ValidateFields(env, PaymentSystemOperatorsReportFields, v).Valid?
    ensures var d := PaymentSystemOperatorsReportOf(ValidateFields(env, PaymentSystemOperatorsReportFields, v).value).period;
      DateBefore(d, env.today) && d.month % 3 == 0 && d.day == DaysInMonth(d.year, d.month)
  {
    FieldsAt();
    ValidPastDate(env, PaymentSystemOperatorsReportFields, v, 6);
    QuarterlyOnIsoDates(Lookup(v.members, "period").value.s);
  }
}
