/** The header of a quantity-items report, which covers one half-year and
    one kind of item. */
module QuantityItemsReportSchema {
  import opened Wrappers
  import opened Calendar
  import opened Json
  import opened FieldValidationFunctions
  import opened Pydantic
  import opened FullEnums
  import opened BaseReportSchema

  const QuantityItemsReportFields: seq<Field> := BaseReportFields + [
    Field("schema_version", Literal(SchemaVersion), true),
    Field("period", PastDate(Some(ValidateHalfYear)), true),
    Field("reported_quantity_item", StrEnum(QuantityItems), true)
  ]

  datatype QuantityItemsReport = QuantityItemsReport(
    base: BaseReport,
    schemaVersion: string,
    period: Day,
    reportedQuantityItem: string)

  function QuantityItemsReportOf(m: map<string, Typed>): QuantityItemsReport
  {
    QuantityItemsReport(BaseReportOf(m), StrAt(m, "schema_version"), DateAt(m, "period"), StrAt(m, "reported_quantity_item"))
  }

  function ValidateQuantityItemsReport(env: Env, v: Value): (r: Outcome<QuantityItemsReport>)
  {
    ParseWith(env, QuantityItemsReportFields, v, QuantityItemsReportOf)
  }

  lemma FieldsAt()
    ensures QuantityItemsReportFields[..5] == BaseReportFields
    ensures QuantityItemsReportFields[5] == Field("schema_version", Literal(SchemaVersion), true)
    ensures QuantityItemsReportFields[6] == Field("period", PastDate(Some(ValidateHalfYear)), true)
    ensures QuantityItemsReportFields[7] == Field("reported_quantity_item", StrEnum(QuantityItems), true)
    ensures FirstNamed(QuantityItemsReportFields, 5) && FirstNamed(QuantityItemsReportFields, 6)
    ensures FirstNamed(QuantityItemsReportFields, 7)
  {
  }

  /** A validated header is of schema version 1.0 and reports one of the
      five kinds of item. */
  lemma ValidatedHeader(env: Env, v: Value)
    requires ValidateFields(env, QuantityItemsReportFields, v).Valid?
    ensures var r := QuantityItemsReportOf(ValidateFields(env, QuantityItemsReportFields, v).value);
      r.schemaVersion == SchemaVersion && r.reportedQuantityItem in QuantityItems
  {
    FieldsAt();
    ValidLiteral(env, QuantityItemsReportFields, v, 5);
    ValidStrEnum(env, QuantityItemsReportFields, v, 7);
  }

  /** The period of a validated header is June 30th or December 31st of a
      past year. */
  lemma ValidatedPeriod(env: Env, v: Value)
    requires ValidateFields(env, QuantityItemsReportFields, v).Valid?
    ensures var d := QuantityItemsReportOf(ValidateFields(env, QuantityItemsReportFields, v).value).period;
      DateBefore(d, env.today) && ((d.month == 6 && d.day == 30) || (d.month == 12 && d.day == 31))
  {
    FieldsAt();
    ValidPastDate(env, QuantityItemsReportFields, v, 6);
    HalfYearOnIsoDates(Lookup(v.members, "period").value.s);
  }
}
