/** The envelope every report file shares: who reports, for which
    environment, when, and the list of items. The items stay raw objects
    here; each report kind checks them against its own item schemas. */
module BaseReportSchema {
  import opened Wrappers
  import opened Text
  import opened Calendar
  import opened Json
  import opened Patterns
  import opened Pydantic
  import opened FullEnums

  /** `reporter_id` must contain an organisation number somewhere. */
  const ReporterIdConstraint: Pattern := Pattern(ReporterIdPatternSource, (s: string) => ContainsReporterId(s))

  /** Every report kind declares `schema_version` as the literal 1.0. */
  const SchemaVersion: string := "1.0"

  const NoItemsMessage: string := "There are no items in the report."

  const BaseReportFields: seq<Field> := [
    Field("reporter_id", String(Some(ReporterIdConstraint), None), true),
    Field("environment", StrEnum(Environment), true),
    Field("report_datetime", PastDatetime(ViaTimestamp), true),
    Field("report_part", String(None, None), false),
    Field("items", ItemList, true)
  ]

  datatype BaseReport = BaseReport(
    reporterId: string,
    environment: string,
    reportDatetime: Moment,
    reportPart: Option<string>,
    items: seq<Value>)

  function BaseReportOf(m: map<string, Typed>): BaseReport
  {
    BaseReport(StrAt(m, "reporter_id"), StrAt(m, "environment"), DateTimeAt(m, "report_datetime"),
               OptStrAt(m, "report_part"), ItemsAt(m, "items"))
  }

  /** The report kinds declare their own fields after these five. */
  lemma BaseFieldAt(fields: seq<Field>, i: int)
    requires |fields| >= 5 && fields[..5] == BaseReportFields && 0 <= i < 5
    ensures fields[i] == BaseReportFields[i] && FirstNamed(fields, i)
  {
    assert forall j :: 0 <= j < 5 ==> fields[j] == BaseReportFields[j];
  }

  /** A validated envelope names an organisation number. */
  lemma ValidatedReporterId(env: Env, fields: seq<Field>, v: Value)
    requires |fields| >= 5 && fields[..5] == BaseReportFields
    requires ValidateFields(env, fields, v).Valid?
    ensures ContainsReporterId(BaseReportOf(ValidateFields(env, fields, v).value).reporterId)
  {
    BaseFieldAt(fields, 0);
    ValidPattern(env, fields, v, 0);
  }

  /** A validated envelope is for the test or the production environment. */
  lemma ValidatedEnvironment(env: Env, fields: seq<Field>, v: Value)
    requires |fields| >= 5 && fields[..5] == BaseReportFields
    requires ValidateFields(env, fields, v).Valid?
    ensures BaseReportOf(ValidateFields(env, fields, v).value).environment in Environment
  {
    BaseFieldAt(fields, 1);
    ValidStrEnum(env, fields, v, 1);
  }

  /** A validated envelope was written in the past and carries at least
      one item, every item an object. */
  lemma ValidatedTimeAndItems(env: Env, fields: seq<Field>, v: Value)
    requires |fields| >= 5 && fields[..5] == BaseReportFields
    requires ValidateFields(env, fields, v).Valid?
    ensures var r := BaseReportOf(ValidateFields(env, fields, v).value);
      DateTimeBefore(r.reportDatetime, env.now)
      && |r.items| > 0 && forall k :: 0 <= k < |r.items| ==> r.items[k].Obj?
  {
    BaseFieldAt(fields, 2);
    BaseFieldAt(fields, 4);
    ValidPastDatetime(env, fields, v, 2);
    ValidItems(env, fields, v, 4);
  }

  /** `len()` of a null or a number raises `TypeError` as written, which
      pydantic does not turn into a validation error. The corrected check
      reports `list_type`. */
  lemma NonListItemsAsWritten(env: Env)
    ensures var f := BaseReportFields[4];
      CheckFieldAsWritten(env, f, [Member("items", Null)]).OtherError?
      && CheckFieldAsWritten(env, f, [Member("items", Int(5))]).OtherError?
      && CheckField(env, f, [Member("items", Null)]) == Failure(Error1("list_type", "items", Null, "Input should be a valid list"))
      && CheckField(env, f, [Member("items", Int(5))]) == Failure(Error1("list_type", "items", Int(5), "Input should be a valid list"))
  {
    assert Lookup([Member("items", Null)], "items") == Some(Null);
    assert Lookup([Member("items", Int(5))], "items") == Some(Int(5));
  }

  /** An empty item list is reported with its own message, whatever else
      the report holds. */
  lemma EmptyItemsRejected(env: Env, fields: seq<Field>, v: Value)
    requires |fields| >= 5 && fields[..5] == BaseReportFields
    requires v.Obj? && Lookup(v.members, "items") == Some(Arr([]))
    ensures ValidateFields(env, fields, v).Invalid?
    ensures ErrorDetails("value_error", ["items"], Arr([]), NoItemsMessage) in ValidateFields(env, fields, v).errors
  {
    BaseFieldAt(fields, 4);
    assert CheckField(env, fields[4], v.members).error == [ErrorDetails("value_error", ["items"], Arr([]), NoItemsMessage)];
    FailedFieldReported(env, fields, v, 4);
  }
}
