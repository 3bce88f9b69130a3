/** The header of a report whose items are single transactions (credit
    transfers, instant credit transfers, card payments, ATM cash). */
module TransactionReportSchema {
  import opened Wrappers
  import opened Calendar
  import opened Json
  import opened FieldValidationFunctions
  import opened Pydantic
  import opened TransactionEnums
  import opened BaseReportSchema

  const TransactionReportFields: seq<Field> := BaseReportFields + [
    Field("schema_version", Literal(SchemaVersion), true),
    Field("date_from", PastDate(Some(ValidateDate)), true),
    Field("date_to", PastDate(Some(ValidateDate)), true),
    Field("reported_payment_type", StrEnum(PaymentTypeTransactions), true)
  ]

  datatype TransactionReport = TransactionReport(
    base: BaseReport,
    schemaVersion: string,
    dateFrom: Day,
    dateTo: Day,
    reportedPaymentType: string)

  function TransactionReportOf(m: map<string, Typed>): TransactionReport
  {
    TransactionReport(BaseReportOf(m), StrAt(m, "schema_version"), DateAt(m, "date_from"), DateAt(m, "date_to"),
                      StrAt(m, "reported_payment_type"))
  }

  /** The header has no model validator: in particular it never compares
      `date_from` with `date_to`. */
  function ValidateTransactionReport(env: Env, v: Value): (r: Outcome<TransactionReport>)
  {
    ParseWith(env, TransactionReportFields, v, TransactionReportOf)
  }

  lemma FieldsAt()
    ensures TransactionReportFields[..5] == BaseReportFields
    ensures TransactionReportFields[5] == Field("schema_version", Literal(SchemaVersion), true)
    ensures TransactionReportFields[6] == Field("date_from", PastDate(Some(ValidateDate)), true)
    ensures TransactionReportFields[7] == Field("date_to", PastDate(Some(ValidateDate)), true)
    ensures TransactionReportFields[8] == Field("reported_payment_type", StrEnum(PaymentTypeTransactions), true)
    ensures FirstNamed(TransactionReportFields, 5) && FirstNamed(TransactionReportFields, 6)
    ensures FirstNamed(TransactionReportFields, 7) && FirstNamed(TransactionReportFields, 8)
  {
  }

  /** A validated header is of schema version 1.0 and reports one of the
      nine transaction payment types. */
  lemma ValidatedHeader(env: Env, v: Value)
    requires ValidateFields(env, TransactionReportFields, v).Valid?
    ensures var r := TransactionReportOf(ValidateFields(env, TransactionReportFields, v).value);
      r.schemaVersion == SchemaVersion && r.reportedPaymentType in PaymentTypeTransactions
  {
    FieldsAt();
    ValidLiteral(env, TransactionReportFields, v, 5);
    ValidStrEnum(env, TransactionReportFields, v, 8);
  }

  /** Both ends of the period were written as `%Y-%m-%d` dates and lie
      before today. */
  lemma ValidatedDates(env: Env, v: Value)
    requires ValidateFields(env, TransactionReportFields, v).Valid?
    ensures var r := TransactionReportOf(ValidateFields(env, TransactionReportFields, v).value);
      DateBefore(r.dateFrom, env.today) && DateBefore(r.dateTo, env.today)
      && Lookup(v.members, "date_from").Some? && ValidateDate(Lookup(v.members, "date_from").value).Success?
      && Lookup(v.members, "date_to").Some? && ValidateDate(Lookup(v.members, "date_to").value).Success?
  {
    FieldsAt();
    ValidPastDate(env, TransactionReportFields, v, 6);
    ValidPastDate(env, TransactionReportFields, v, 7);
  }
}
