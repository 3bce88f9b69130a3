/** The part of pydantic the schemas rely on: a model is a list of declared
    fields, each with a type, optional constraints and optional field
    validators; `extra="forbid"` closes it; its `mode="after"` model
    validator runs only once every field has validated. A validation ends
    with the typed field values or with the list of error records. */
module Pydantic {
  import opened Wrappers
  import opened Text
  import opened Calendar
  import opened Json
  import opened FieldValidationFunctions

  /** One entry of a `ValidationError`: its type, location, input and
      message. For a `value_error` the message is the text of the
      `ValueError`; pydantic shows it after "Value error, ". */
  datatype ErrorDetails = ErrorDetails(kind: string, loc: seq<string>, input: Value, msg: string)

  datatype Outcome<T> = Valid(value: T) | Invalid(errors: seq<ErrorDetails>)

  /** What a validation reads besides its input: the code lists, and the
      clock behind `PastDate` and `PastDatetime`. */
  datatype Env = Env(lists: CodeLists, today: Day, now: Moment)

  /** A field value after validation; `Absent` is Python's `None`. */
  datatype Typed =
    | Absent
    | TStr(s: string)
    | TInt(i: int)
    | TCents(cents: int)
    | TFloat(f: Decimal)
    | TDate(d: Day)
    | TDateTime(t: Moment)
    | TItems(items: seq<Value>)

  /** A `pattern=` constraint: its source text and what it accepts. */
  datatype Pattern = Pattern(source: string, matches: string -> bool)

  /** An after-mode validator of a string field. `handlesNone` says whether
      it returns an explicit null unchanged rather than calling `.upper()`
      on it. */
  datatype After = After(run: (CodeLists, string) -> Result<string, string>, handlesNone: bool)

  /** How a `PastDatetime` field reads its input: through
      `validate_timestamp` and then pydantic's own parser, or through a
      before-validator that itself returns the `datetime`. */
  datatype DatetimeReader = ViaTimestamp | ViaParser(parse: Value -> Result<Moment, string>)

  /** The declared type of a field with its constraints and validators. */
  datatype Kind =
    | String(pattern: Option<Pattern>, after: Option<After>)  // str
    | StrEnum(codes: seq<string>)                           // a StrEnum
    | IntEnum(values: seq<int>)                            // an IntEnum
    | Literal(text: string)                                 // Literal["..."]
    | Integer(ge: int)                                      // int, Field(ge=...)
    | Money(ge: int, le: Option<int>)                       // Decimal, Field(ge, le, decimal_places=2), bounds in hundredths
    | Float                                                 // float
    | PastDate(before: Option<Value -> Result<string, string>>)
    | PastDatetime(reader: DatetimeReader)
    | ItemList                                              // list[dict[str, Any]] behind validate_items_length

  /** A declared field; one that is not `required` defaults to `None`. */
  datatype Field = Field(name: string, kind: Kind, required: bool)

  function Names(fields: seq<Field>): (names: set<string>)
    ensures forall i :: 0 <= i < |fields| ==> fields[i].name in names
    ensures forall n :: n in names ==> exists i :: 0 <= i < |fields| && fields[i].name == n
  {
    set i | 0 <= i < |fields| :: fields[i].name
  }

  /** No field declared before `fields[i]` has its name, so the value
      kept under that name is the one `fields[i]` gives. */
  predicate FirstNamed(fields: seq<Field>, i: int)
    requires 0 <= i < |fields|
  {
    forall j :: 0 <= j < i ==> fields[j].name != fields[i].name
  }

  // ----- messages -----

  /** How pydantic lists the allowed values: `'a', 'b' or 'c'`. */
  function Alternatives(items: seq<string>): string
  {
    if |items| == 0 then ""
    else if |items| == 1 then items[0]
    else if |items| == 2 then items[0] + " or " + items[1]
    else items[0] + ", " + Alternatives(items[1..])
  }

  function Quoted(codes: seq<string>): (r: seq<string>)
    ensures |r| == |codes|
  {
    seq(|codes|, i requires 0 <= i < |codes| => "'" + codes[i] + "'")
  }

  function Numbers(codes: seq<int>): (r: seq<string>)
    ensures |r| == |codes|
  {
    seq(|codes|, i requires 0 <= i < |codes| => IntToString(codes[i]))
  }

  /** A bound given in hundredths, as `str(float)` writes it. */
  function Hundredths(c: int): string
  {
    RenderDecimal(Decimal(c, 2))
  }

  function Error1(kind: string, name: string, v: Value, msg: string): seq<ErrorDetails>
  {
    [ErrorDetails(kind, [name], v, msg)]
  }

  // ----- one field -----

  function CheckText(lists: CodeLists, name: string, pattern: Option<Pattern>, after: Option<After>, v: Value): (r: Result<Typed, seq<ErrorDetails>>)
    ensures r.Success? <==> v.Str? && (pattern.None? || pattern.value.matches(v.s))
                            && (after.None? || after.value.run(lists, v.s).Success?)
    ensures r.Success? ==> r.value == TStr(if after.None? then v.s else after.value.run(lists, v.s).value)
    ensures r.Failure? ==> |r.error| == 1 && r.error[0].loc == [name] && r.error[0].input == v
  {
    if !v.Str? then Failure(Error1("string_type", name, v, "Input should be a valid string"))
    else if pattern.Some? && !pattern.value.matches(v.s) then
      Failure(Error1("string_pattern_mismatch", name, v, "String should match pattern '" + pattern.value.source + "'"))
    else if after.None? then Success(TStr(v.s))
    else match after.value.run(lists, v.s)
      case Success(s) => Success(TStr(s))
      case Failure(m) => Failure(Error1("value_error", name, v, m))
  }

  /** The value of a JSON number that has no fractional part. */
  function IntegralValue(v: Value): Option<int>
  {
    match v
    case Int(i) => Some(i)
    case Num(d) => if d.units % Pow10(d.scale) == 0 then Some(d.units / Pow10(d.scale)) else None
    case _ => None
  }

  function CheckInteger(name: string, ge: int, v: Value): (r: Result<Typed, seq<ErrorDetails>>)
    ensures r.Success? <==> IntegralValue(v).Some? && IntegralValue(v).value >= ge
    ensures r.Success? ==> r.value == TInt(IntegralValue(v).value)
    ensures r.Failure? ==> |r.error| == 1 && r.error[0].loc == [name]
  {
    match IntegralValue(v)
    case None =>
      if v.Num? then Failure(Error1("int_from_float", name, v, "Input should be a valid integer, got a number with a fractional part"))
      else Failure(Error1("int_type", name, v, "Input should be a valid integer"))
    case Some(i) =>
      if i < ge then Failure(Error1("greater_than_equal", name, v, "Input should be greater than or equal to " + IntToString(ge)))
      else Success(TInt(i))
  }

  /** The decimal a JSON number converts to. */
  function DecimalOf(v: Value): Option<Decimal>
  {
    match v
    case Int(i) => Some(Decimal(i, 0))
    case Num(d) => Some(d)
    case _ => None
  }

  /** At most two places once trailing zeros are dropped, which is when the
      value is a whole number of hundredths. */
  predicate AtMostTwoPlaces(d: Decimal)
  {
    (d.units * 100) % Pow10(d.scale) == 0
  }

  function HundredthsOf(d: Decimal): int
  {
    (d.units * 100) / Pow10(d.scale)
  }

  /** A whole number of hundredths is exactly its hundredths over 100. */
  lemma HundredthsExact(d: Decimal)
    requires AtMostTwoPlaces(d)
    ensures HundredthsOf(d) * Pow10(d.scale) == d.units * 100
  {
  }

  function CheckMoney(name: string, ge: int, le: Option<int>, v: Value): (r: Result<Typed, seq<ErrorDetails>>)
    ensures r.Success? <==> DecimalOf(v).Some? && AtMostTwoPlaces(DecimalOf(v).value)
                            && HundredthsOf(DecimalOf(v).value) >= ge
                            && (le.None? || HundredthsOf(DecimalOf(v).value) <= le.value)
    ensures r.Success? ==> r.value == TCents(HundredthsOf(DecimalOf(v).value))
    ensures r.Failure? ==> |r.error| == 1 && r.error[0].loc == [name]
  {
    match DecimalOf(v)
    case None => Failure(Error1("decimal_type", name, v, "Decimal input should be an integer, float, string or Decimal object"))
    case Some(d) =>
      if !AtMostTwoPlaces(d) then Failure(Error1("decimal_max_places", name, v, "Decimal input should have no more than 2 decimal places"))
      else if HundredthsOf(d) < ge then Failure(Error1("greater_than_equal", name, v, "Input should be greater than or equal to " + Hundredths(ge)))
      else if le.Some? && HundredthsOf(d) > le.value then Failure(Error1("less_than_equal", name, v, "Input should be less than or equal to " + Hundredths(le.value)))
      else Success(TCents(HundredthsOf(d)))
  }

  /** Pydantic's message for a date-time that is not at midnight. */
  const DateInexactMessage: string := "Datetimes provided to dates should have zero time - e.g. be exact dates"

  /** What pydantic's date parser reads: the input itself, or the text the
      before-validator returned. */
  function DateInput(before: Option<Value -> Result<string, string>>, v: Value): Value
  {
    if before.None? then v else if before.value(v).Success? then Str(before.value(v).value) else Null
  }

  function CheckPastDate(today: Day, name: string, before: Option<Value -> Result<string, string>>, v: Value): (r: Result<Typed, seq<ErrorDetails>>)
    ensures r.Success? <==>
      var s := DateInput(before, v);
      (before.None? || before.value(v).Success?) && s.Str? && LaxDate(s.s).ReadDate? && DateBefore(LaxDate(s.s).date, today)
    ensures r.Success? ==> r.value.TDate?
    ensures r.Failure? ==> |r.error| == 1 && r.error[0].loc == [name]
  {
    if before.Some? && before.value(v).Failure? then Failure(Error1("value_error", name, v, before.value(v).error))
    else
      var s := DateInput(before, v);
      if !s.Str? then Failure(Error1("date_type", name, s, "Input should be a valid date"))
      else match LaxDate(s.s)
        case Unreadable => Failure(Error1("date_from_datetime_parsing", name, s, "Input should be a valid date or datetime"))
        case Inexact => Failure(Error1("date_from_datetime_inexact", name, s, DateInexactMessage))
        case ReadDate(d) =>
          if !DateBefore(d, today) then Failure(Error1("date_past", name, s, "Date should be in the past"))
          else Success(TDate(d))
  }

  /** A date reads through a before-validator and pydantic's own parser:
      both must accept it. */
  lemma PastDateReadsIso(today: Day, name: string, before: Value -> Result<string, string>, v: Value)
    requires forall x :: before(x).Success? ==> x == Str(before(x).value)
    ensures CheckPastDate(today, name, Some(before), v).Success? <==>
      before(v).Success? && LaxDate(v.s).ReadDate? && DateBefore(LaxDate(v.s).date, today)
    ensures CheckPastDate(today, name, Some(before), v).Success? ==>
      CheckPastDate(today, name, Some(before), v).value == TDate(LaxDate(v.s).date)
  {
  }

  /** Without a before-validator a date-time text at midnight gives its
      date; one at any other time is refused as inexact. */
  lemma MidnightDateTimeGivesDate(today: Day, name: string, t: DateTime)
    requires ValidDateTime(t)
    ensures var r := CheckPastDate(today, name, None, Str(FormatDateTime(t)));
      if !IsMidnight(t) then r.Failure? && r.error[0].kind == "date_from_datetime_inexact"
      else r.Success? <==> DateBefore(t.date, today)
    ensures IsMidnight(t) && DateBefore(t.date, today) ==>
      CheckPastDate(today, name, None, Str(FormatDateTime(t))).value == TDate(t.date)
  {
    LaxDateOfDateTime(t);
    IsoDateTimeOfFormat(t);
  }

  function CheckPastDatetime(env: Env, name: string, reader: DatetimeReader, v: Value): (r: Result<Typed, seq<ErrorDetails>>)
    ensures reader.ViaTimestamp? ==> (r.Success? <==>
      v.Str? && StrptimeTimestamp(v.s).Some? && IsoDateTime(v.s).Some? && DateTimeBefore(IsoDateTime(v.s).value, env.now))
    ensures reader.ViaParser? ==> (r.Success? <==>
      reader.parse(v).Success? && DateTimeBefore(reader.parse(v).value, env.now))
    ensures r.Success? ==> r.value.TDateTime?
    ensures r.Failure? ==> |r.error| == 1 && r.error[0].loc == [name]
  {
    match reader
    case ViaParser(parse) =>
      (match parse(v)
       case Failure(m) => Failure(Error1("value_error", name, v, m))
       case Success(t) =>
         if !DateTimeBefore(t, env.now) then Failure(Error1("datetime_past", name, v, "Input should be in the past"))
         else Success(TDateTime(t)))
    case ViaTimestamp =>
      match ValidateTimestamp(v)
      case Failure(m) => Failure(Error1("value_error", name, v, m))
      case Success(None) => Failure(Error1("datetime_type", name, v, "Input should be a valid datetime"))
      case Success(Some(s)) =>
        match IsoDateTime(s)
        case None => Failure(Error1("datetime_from_date_parsing", name, v, "Input should be a valid datetime or date"))
        case Some(t) =>
          if !DateTimeBefore(t, env.now) then Failure(Error1("datetime_past", name, v, "Input should be in the past"))
          else Success(TDateTime(t))
  }

  /** `validate_items_length` returns any non-empty input unchanged, and then
      every element of the list must be a dictionary. */
  function CheckItems(v: Value): (r: Result<Typed, seq<ErrorDetails>>)
    ensures r.Success? <==> v.Arr? && |v.elems| > 0 && forall i :: 0 <= i < |v.elems| ==> v.elems[i].Obj?
    ensures r.Success? ==> r.value == TItems(v.elems)
    ensures v == Arr([]) ==> r == Failure(Error1("value_error", "items", v, "There are no items in the report."))
  {
    match v
    case Arr(es) =>
      if es == [] then Failure(Error1("value_error", "items", v, "There are no items in the report."))
      else
        var bad := ElementErrors(es, 0);
        if bad == [] then Success(TItems(es)) else Failure(bad)
    case Str(s) =>
      if s == [] then Failure(Error1("value_error", "items", v, "There are no items in the report."))
      else Failure(Error1("list_type", "items", v, "Input should be a valid list"))
    case Obj(ms) =>
      if ms == [] then Failure(Error1("value_error", "items", v, "There are no items in the report."))
      else Failure(Error1("list_type", "items", v, "Input should be a valid list"))
    case _ => Failure(Error1("list_type", "items", v, "Input should be a valid list"))
  }

  /** One `dict_type` error per element that is not an object, located at
      its index. */
  function ElementErrors(es: seq<Value>, from: nat): (r: seq<ErrorDetails>)
    requires from <= |es|
    ensures r == [] <==> forall i :: from <= i < |es| ==> es[i].Obj?
    ensures |r| <= |es| - from
    decreases |es| - from
  {
    if from == |es| then []
    else
      (if es[from].Obj? then [] else [ErrorDetails("dict_type", ["items", NatToString(from)], es[from], "Input should be a valid dictionary")])
      + ElementErrors(es, from + 1)
  }

  /** What pydantic does with a present value of a field, or an explicit
      null of a required one. */
  function CheckValue(env: Env, name: string, kind: Kind, v: Value): (r: Result<Typed, seq<ErrorDetails>>)
    ensures r.Failure? ==> |r.error| >= 1
    ensures r.Success? ==> r.value != Absent
  {
    match kind
    case String(pattern, after) => CheckText(env.lists, name, pattern, after, v)
    case StrEnum(codes) =>
      if v.Str? && v.s in codes then Success(TStr(v.s))
      else Failure(Error1("enum", name, v, "Input should be " + Alternatives(Quoted(codes))))
    case IntEnum(values) =>
      var i := IntegralValue(v);
      if i.Some? && i.value in values then Success(TInt(i.value))
      else Failure(Error1("enum", name, v, "Input should be " + Alternatives(Numbers(values))))
    case Literal(text) =>
      if v == Str(text) then Success(TStr(text))
      else Failure(Error1("literal_error", name, v, "Input should be '" + text + "'"))
    case Integer(ge) => CheckInteger(name, ge, v)
    case Money(ge, le) => CheckMoney(name, ge, le, v)
    case Float =>
      if DecimalOf(v).Some? then Success(TFloat(DecimalOf(v).value))
      else Failure(Error1("float_type", name, v, "Input should be a valid number"))
    case PastDate(before) => CheckPastDate(env.today, name, before, v)
    case PastDatetime(reader) => CheckPastDatetime(env, name, reader, v)
    case ItemList => CheckItems(v)
  }

  /** One declared field of an input object: a missing required field is an
      error, a missing or null optional field is `None`, anything else is
      checked against the field's type. */
  function CheckField(env: Env, f: Field, members: seq<Member>): (r: Result<Typed, seq<ErrorDetails>>)
    ensures Lookup(members, f.name).None? ==>
      r == (if f.required then Failure([ErrorDetails("missing", [f.name], Obj(members), "Field required")]) else Success(Absent))
    ensures Lookup(members, f.name) == Some(Null) && !f.required ==> r == Success(Absent)
    ensures r.Success? && r.value == Absent ==> !f.required
    ensures r.Failure? ==> |r.error| >= 1
  {
    match Lookup(members, f.name)
    case None =>
      if f.required then Failure([ErrorDetails("missing", [f.name], Obj(members), "Field required")]) else Success(Absent)
    case Some(v) =>
      if v.Null? && !f.required then Success(Absent) else CheckValue(env, f.name, f.kind, v)
  }

  // ----- a whole model -----

  /** The errors of every declared field, in declaration order. */
  function FieldErrors(env: Env, fields: seq<Field>, members: seq<Member>): seq<ErrorDetails>
  {
    if fields == [] then []
    else
      var here := CheckField(env, fields[0], members);
      (if here.Failure? then here.error else []) + FieldErrors(env, fields[1..], members)
  }

  /** No field errors exactly when every declared field's check passes. */
  lemma {:induction false} FieldErrorsEmpty(env: Env, fields: seq<Field>, members: seq<Member>)
    ensures FieldErrors(env, fields, members) == [] <==> forall i :: 0 <= i < |fields| ==> CheckField(env, fields[i], members).Success?
  {
    if fields != [] {
      FieldErrorsEmpty(env, fields[1..], members);
      assert forall i :: 1 <= i < |fields| ==> fields[i] == fields[1..][i - 1];
    }
  }

  /** What a field keeps in the record: its check's value, or None where
      the check failed. */
  function Kept(env: Env, f: Field, members: seq<Member>): Typed
  {
    var r := CheckField(env, f, members);
    if r.Success? then r.value else Absent
  }

  function KeptValues(env: Env, fields: seq<Field>, members: seq<Member>): (vs: seq<Typed>)
    ensures |vs| == |fields|
  {
    if fields == [] then [] else [Kept(env, fields[0], members)] + KeptValues(env, fields[1..], members)
  }

  lemma {:induction false} KeptValuesAt(env: Env, fields: seq<Field>, members: seq<Member>, j: int)
    requires 0 <= j < |fields|
    ensures KeptValues(env, fields, members)[j] == Kept(env, fields[j], members)
  {
    if j > 0 {
      assert fields[1..][j - 1] == fields[j];
      KeptValuesAt(env, fields[1..], members, j - 1);
    }
  }

  /** The record of the declared names with their values; where two fields
      share a name, the earlier one wins. */
  function Assemble(fields: seq<Field>, values: seq<Typed>): (m: map<string, Typed>)
    requires |values| == |fields|
    ensures m.Keys == Names(fields)
  {
    if fields == [] then map[]
    else
      assert Names(fields) == {fields[0].name} + Names(fields[1..]) by {
        assert forall i :: 1 <= i < |fields| ==> fields[i] == fields[1..][i - 1];
      }
      Assemble(fields[1..], values[1..])[fields[0].name := values[0]]
  }

  function FieldValues(env: Env, fields: seq<Field>, members: seq<Member>): (m: map<string, Typed>)
    ensures m.Keys == Names(fields)
  {
    Assemble(fields, KeptValues(env, fields, members))
  }

  /** `extra="forbid"`: one error per member whose key is not declared. */
  function ExtraErrors(names: set<string>, members: seq<Member>): seq<ErrorDetails>
  {
    if members == [] then []
    else
      (if members[0].key in names then []
       else [ErrorDetails("extra_forbidden", [members[0].key], members[0].value, "Extra inputs are not permitted")])
      + ExtraErrors(names, members[1..])
  }

  /** No extra errors exactly when every key is declared. */
  lemma {:induction false} ExtraErrorsEmpty(names: set<string>, members: seq<Member>)
    ensures ExtraErrors(names, members) == [] <==> forall k :: 0 <= k < |members| ==> members[k].key in names
  {
    if members != [] {
      ExtraErrorsEmpty(names, members[1..]);
      assert forall k :: 1 <= k < |members| ==> members[k] == members[1..][k - 1];
    }
  }

  /** Each undeclared key has its own `extra_forbidden` error. */
  lemma {:induction false} ExtraKeyInErrors(names: set<string>, members: seq<Member>, k: int)
    requires 0 <= k < |members| && members[k].key !in names
    ensures ErrorDetails("extra_forbidden", [members[k].key], members[k].value, "Extra inputs are not permitted")
      in ExtraErrors(names, members)
  {
    if k > 0 {
      assert members[1..][k - 1] == members[k];
      ExtraKeyInErrors(names, members[1..], k - 1);
    }
  }

  /** Field validation of a closed model: the field errors in declaration
      order, then the extra-key errors. */
  function ValidateFields(env: Env, fields: seq<Field>, v: Value): (r: Outcome<map<string, Typed>>)
  {
    if !v.Obj? then Invalid([ErrorDetails("model_type", [], v, "Input should be a valid dictionary or instance of the model")])
    else
      var errors := FieldErrors(env, fields, v.members) + ExtraErrors(Names(fields), v.members);
      if errors == [] then Valid(FieldValues(env, fields, v.members)) else Invalid(errors)
  }

  /** A model validates exactly when the input is an object, every declared
      field validates, and no undeclared key is present. */
  lemma ValidateFieldsAccepts(env: Env, fields: seq<Field>, v: Value)
    ensures ValidateFields(env, fields, v).Valid? <==>
      v.Obj? && (forall i :: 0 <= i < |fields| ==> CheckField(env, fields[i], v.members).Success?)
      && (forall k :: 0 <= k < |v.members| ==> v.members[k].key in Names(fields))
  {
    if v.Obj? {
      FieldErrorsEmpty(env, fields, v.members);
      ExtraErrorsEmpty(Names(fields), v.members);
    }
  }

  /** Every undeclared key is reported. */
  lemma ExtraKeyReported(env: Env, fields: seq<Field>, v: Value, k: int)
    requires v.Obj? && 0 <= k < |v.members| && v.members[k].key !in Names(fields)
    ensures ValidateFields(env, fields, v).Invalid?
    ensures ErrorDetails("extra_forbidden", [v.members[k].key], v.members[k].value, "Extra inputs are not permitted")
      in ValidateFields(env, fields, v).errors
  {
    ExtraKeyInErrors(Names(fields), v.members, k);
  }

  /** A missing required field is reported as missing. */
  lemma {:induction false} MissingFieldReported(env: Env, fields: seq<Field>, v: Value, i: int)
    requires v.Obj? && 0 <= i < |fields| && fields[i].required && Lookup(v.members, fields[i].name).None?
    ensures ValidateFields(env, fields, v).Invalid?
    ensures ErrorDetails("missing", [fields[i].name], v, "Field required") in ValidateFields(env, fields, v).errors
  {
    MissingInFieldErrors(env, fields, v.members, i);
  }

  lemma {:induction false} MissingInFieldErrors(env: Env, fields: seq<Field>, members: seq<Member>, i: int)
    requires 0 <= i < |fields| && fields[i].required && Lookup(members, fields[i].name).None?
    ensures ErrorDetails("missing", [fields[i].name], Obj(members), "Field required") in FieldErrors(env, fields, members)
  {
    if i > 0 {
      assert fields[1..][i - 1] == fields[i];
      MissingInFieldErrors(env, fields[1..], members, i - 1);
    }
  }

  /** The errors of every failing field are reported. */
  lemma FailedFieldReported(env: Env, fields: seq<Field>, v: Value, i: int)
    requires v.Obj? && 0 <= i < |fields| && CheckField(env, fields[i], v.members).Failure?
    ensures ValidateFields(env, fields, v).Invalid?
    ensures forall e :: e in CheckField(env, fields[i], v.members).error ==> e in ValidateFields(env, fields, v).errors
  {
    FailedInFieldErrors(env, fields, v.members, i);
    assert CheckField(env, fields[i], v.members).error[0] in FieldErrors(env, fields, v.members);
  }

  lemma {:induction false} FailedInFieldErrors(env: Env, fields: seq<Field>, members: seq<Member>, i: int)
    requires 0 <= i < |fields| && CheckField(env, fields[i], members).Failure?
    ensures forall e :: e in CheckField(env, fields[i], members).error ==> e in FieldErrors(env, fields, members)
  {
    if i > 0 {
      assert fields[1..][i - 1] == fields[i];
      FailedInFieldErrors(env, fields[1..], members, i - 1);
    }
  }

  /** The value kept for each declared field is what its own check gave. */
  lemma FieldValuesAreChecks(env: Env, fields: seq<Field>, members: seq<Member>, i: int)
    requires 0 <= i < |fields| && FirstNamed(fields, i)
    requires CheckField(env, fields[i], members).Success?
    ensures FieldValues(env, fields, members)[fields[i].name] == CheckField(env, fields[i], members).value
  {
    AssembleAt(fields, KeptValues(env, fields, members), i);
    KeptValuesAt(env, fields, members, i);
  }

  lemma {:induction false} AssembleAt(fields: seq<Field>, values: seq<Typed>, i: int)
    requires |values| == |fields| && 0 <= i < |fields| && FirstNamed(fields, i)
    ensures Assemble(fields, values)[fields[i].name] == values[i]
  {
    if i > 0 {
      assert fields[1..][i - 1] == fields[i] && values[1..][i - 1] == values[i];
      assert FirstNamed(fields[1..], i - 1) by {
        forall j | 0 <= j < i - 1 ensures fields[1..][j].name != fields[i].name {
          assert fields[1..][j] == fields[j + 1];
        }
      }
      AssembleAt(fields[1..], values[1..], i - 1);
      assert fields[0].name != fields[i].name;
    }
  }

  /** A valid model holds, under each declared name, what that field's check
      gave; and only those names. */
  lemma ValidFieldsAreChecks(env: Env, fields: seq<Field>, v: Value, i: int)
    requires 0 <= i < |fields| && FirstNamed(fields, i)
    requires ValidateFields(env, fields, v).Valid?
    ensures v.Obj? && CheckField(env, fields[i], v.members).Success?
    ensures ValidateFields(env, fields, v).value.Keys == Names(fields)
    ensures ValidateFields(env, fields, v).value[fields[i].name] == CheckField(env, fields[i], v.members).value
  {
    ValidateFieldsAccepts(env, fields, v);
    FieldValuesAreChecks(env, fields, v.members, i);
  }

  /** A valid model keeps, for a field of a string enumeration, one of its
      codes; for a required one always. */
  lemma ValidStrEnum(env: Env, fields: seq<Field>, v: Value, i: int)
    requires 0 <= i < |fields| && FirstNamed(fields, i) && fields[i].kind.StrEnum?
    requires ValidateFields(env, fields, v).Valid?
    ensures var t := OptStrAt(ValidateFields(env, fields, v).value, fields[i].name);
      (t.Some? ==> t.value in fields[i].kind.codes) && (fields[i].required ==> t.Some?)
  {
    ValidFieldsAreChecks(env, fields, v, i);
    CheckedStrEnum(env, fields[i], v.members);
  }

  lemma CheckedStrEnum(env: Env, f: Field, members: seq<Member>)
    requires f.kind.StrEnum? && CheckField(env, f, members).Success?
    ensures var t := CheckField(env, f, members).value;
      (t == Absent && !f.required) || (t.TStr? && t.s in f.kind.codes)
  {
  }

  /** The same for an integer enumeration. */
  lemma ValidIntEnum(env: Env, fields: seq<Field>, v: Value, i: int)
    requires 0 <= i < |fields| && FirstNamed(fields, i) && fields[i].kind.IntEnum?
    requires ValidateFields(env, fields, v).Valid?
    ensures var t := OptIntAt(ValidateFields(env, fields, v).value, fields[i].name);
      (t.Some? ==> t.value in fields[i].kind.values) && (fields[i].required ==> t.Some?)
  {
    ValidFieldsAreChecks(env, fields, v, i);
    CheckedIntEnum(env, fields[i], v.members);
  }

  lemma CheckedIntEnum(env: Env, f: Field, members: seq<Member>)
    requires f.kind.IntEnum? && CheckField(env, f, members).Success?
    ensures var t := CheckField(env, f, members).value;
      (t == Absent && !f.required) || (t.TInt? && t.i in f.kind.values)
  {
  }

  /** An integer enumeration takes a member given as a whole number in
      either JSON form, keeps it as that integer, and refuses the same
      number with a fraction. */
  lemma IntEnumTakesWholeNumbers(env: Env, values: seq<int>)
    requires 2 in values
    ensures CheckValue(env, "role", IntEnum(values), Num(Decimal(20, 1))) == Success(TInt(2))
    ensures CheckValue(env, "role", IntEnum(values), Int(2)) == Success(TInt(2))
    ensures CheckValue(env, "role", IntEnum(values), Num(Decimal(25, 1))).Failure?
  {
    assert Pow10(1) == 10;
  }

  /** A required integer is kept at or above its bound. */
  lemma ValidInteger(env: Env, fields: seq<Field>, v: Value, i: int)
    requires 0 <= i < |fields| && FirstNamed(fields, i) && fields[i].kind.Integer? && fields[i].required
    requires ValidateFields(env, fields, v).Valid?
    ensures var m := ValidateFields(env, fields, v).value;
      m[fields[i].name].TInt? && IntAt(m, fields[i].name) >= fields[i].kind.ge
  {
    ValidFieldsAreChecks(env, fields, v, i);
    CheckedInteger(env, fields[i], v.members);
  }

  lemma CheckedInteger(env: Env, f: Field, members: seq<Member>)
    requires f.kind.Integer? && f.required && CheckField(env, f, members).Success?
    ensures var t := CheckField(env, f, members).value; t.TInt? && t.i >= f.kind.ge
  {
  }

  /** A required amount is kept in hundredths within its bounds. */
  lemma ValidMoney(env: Env, fields: seq<Field>, v: Value, i: int)
    requires 0 <= i < |fields| && FirstNamed(fields, i) && fields[i].kind.Money? && fields[i].required
    requires ValidateFields(env, fields, v).Valid?
    ensures var m := ValidateFields(env, fields, v).value; var c := CentsAt(m, fields[i].name);
      m[fields[i].name].TCents? && c >= fields[i].kind.ge && (fields[i].kind.le.Some? ==> c <= fields[i].kind.le.value)
  {
    ValidFieldsAreChecks(env, fields, v, i);
    CheckedMoney(env, fields[i], v.members);
  }

  lemma CheckedMoney(env: Env, f: Field, members: seq<Member>)
    requires f.kind.Money? && f.required && CheckField(env, f, members).Success?
    ensures var t := CheckField(env, f, members).value;
      t.TCents? && t.cents >= f.kind.ge && (f.kind.le.Some? ==> t.cents <= f.kind.le.value)
  {
  }

  /** A text field with an after-validator keeps what that validator
      returned for the text given. */
  lemma ValidChecked(env: Env, fields: seq<Field>, v: Value, i: int)
    requires 0 <= i < |fields| && FirstNamed(fields, i) && fields[i].kind.String? && fields[i].kind.after.Some?
    requires ValidateFields(env, fields, v).Valid?
    ensures var t := OptStrAt(ValidateFields(env, fields, v).value, fields[i].name);
      var raw := Lookup(v.members, fields[i].name);
      (fields[i].required ==> t.Some?)
      && (t.Some? ==> raw.Some? && raw.value.Str? && fields[i].kind.after.value.run(env.lists, raw.value.s) == Success(t.value))
  {
    ValidFieldsAreChecks(env, fields, v, i);
  }

  /** A required text field with a pattern keeps a string the pattern
      accepts. */
  lemma ValidPattern(env: Env, fields: seq<Field>, v: Value, i: int)
    requires 0 <= i < |fields| && FirstNamed(fields, i) && fields[i].kind.String? && fields[i].kind.pattern.Some?
    requires fields[i].kind.after.None? && fields[i].required
    requires ValidateFields(env, fields, v).Valid?
    ensures var t := ValidateFields(env, fields, v).value[fields[i].name];
      t.TStr? && fields[i].kind.pattern.value.matches(t.s)
  {
    ValidFieldsAreChecks(env, fields, v, i);
    CheckedPattern(env, fields[i], v.members);
  }

  lemma CheckedPattern(env: Env, f: Field, members: seq<Member>)
    requires f.kind.String? && f.kind.pattern.Some? && f.kind.after.None? && f.required
    requires CheckField(env, f, members).Success?
    ensures var t := CheckField(env, f, members).value; t.TStr? && f.kind.pattern.value.matches(t.s)
  {
  }

  /** A required literal keeps exactly its text. */
  lemma ValidLiteral(env: Env, fields: seq<Field>, v: Value, i: int)
    requires 0 <= i < |fields| && FirstNamed(fields, i) && fields[i].kind.Literal? && fields[i].required
    requires ValidateFields(env, fields, v).Valid?
    ensures ValidateFields(env, fields, v).value[fields[i].name] == TStr(fields[i].kind.text)
  {
    ValidFieldsAreChecks(env, fields, v, i);
    CheckedLiteral(env, fields[i], v.members);
  }

  lemma CheckedLiteral(env: Env, f: Field, members: seq<Member>)
    requires f.kind.Literal? && f.required && CheckField(env, f, members).Success?
    ensures CheckField(env, f, members).value == TStr(f.kind.text)
  {
  }

  /** A required past date keeps a date before today, read in lax mode
      from the text its before-validator returned. */
  lemma ValidPastDate(env: Env, fields: seq<Field>, v: Value, i: int)
    requires 0 <= i < |fields| && FirstNamed(fields, i) && fields[i].kind.PastDate? && fields[i].kind.before.Some?
    requires fields[i].required
    requires ValidateFields(env, fields, v).Valid?
    ensures var t := ValidateFields(env, fields, v).value[fields[i].name];
      var raw := Lookup(v.members, fields[i].name); var before := fields[i].kind.before.value;
      t.TDate? && DateBefore(t.d, env.today) && raw.Some? && before(raw.value).Success?
      && LaxDate(before(raw.value).value).ReadDate? && LaxDate(before(raw.value).value).date == t.d
  {
    ValidFieldsAreChecks(env, fields, v, i);
    CheckedPastDate(env, fields[i], v.members);
  }

  lemma CheckedPastDate(env: Env, f: Field, members: seq<Member>)
    requires f.kind.PastDate? && f.kind.before.Some? && f.required && CheckField(env, f, members).Success?
    ensures var t := CheckField(env, f, members).value; var raw := Lookup(members, f.name);
      t.TDate? && DateBefore(t.d, env.today) && raw.Some? && f.kind.before.value(raw.value).Success?
      && LaxDate(f.kind.before.value(raw.value).value).ReadDate? && LaxDate(f.kind.before.value(raw.value).value).date == t.d
  {
  }

  /** A required past datetime keeps a moment before now. */
  lemma ValidPastDatetime(env: Env, fields: seq<Field>, v: Value, i: int)
    requires 0 <= i < |fields| && FirstNamed(fields, i) && fields[i].kind.PastDatetime? && fields[i].required
    requires ValidateFields(env, fields, v).Valid?
    ensures var t := ValidateFields(env, fields, v).value[fields[i].name];
      t.TDateTime? && DateTimeBefore(t.t, env.now)
  {
    ValidFieldsAreChecks(env, fields, v, i);
    CheckedPastDatetime(env, fields[i], v.members);
  }

  lemma CheckedPastDatetime(env: Env, f: Field, members: seq<Member>)
    requires f.kind.PastDatetime? && f.required && CheckField(env, f, members).Success?
    ensures var t := CheckField(env, f, members).value; t.TDateTime? && DateTimeBefore(t.t, env.now)
  {
  }

  /** A required item list keeps a non-empty list of objects. */
  lemma ValidItems(env: Env, fields: seq<Field>, v: Value, i: int)
    requires 0 <= i < |fields| && FirstNamed(fields, i) && fields[i].kind.ItemList? && fields[i].required
    requires ValidateFields(env, fields, v).Valid?
    ensures var t := ValidateFields(env, fields, v).value[fields[i].name];
      t.TItems? && |t.items| > 0 && forall k :: 0 <= k < |t.items| ==> t.items[k].Obj?
  {
    ValidFieldsAreChecks(env, fields, v, i);
    CheckedItems(env, fields[i], v.members);
  }

  lemma CheckedItems(env: Env, f: Field, members: seq<Member>)
    requires f.kind.ItemList? && f.required && CheckField(env, f, members).Success?
    ensures var t := CheckField(env, f, members).value;
      t.TItems? && |t.items| > 0 && forall k :: 0 <= k < |t.items| ==> t.items[k].Obj?
  {
  }

  /** Field validation followed by building the typed record. */
  function ParseWith<R>(env: Env, fields: seq<Field>, v: Value, build: map<string, Typed> -> R): (r: Outcome<R>)
    ensures r.Valid? <==> ValidateFields(env, fields, v).Valid?
    ensures r.Valid? ==> r.value == build(ValidateFields(env, fields, v).value)
    ensures r.Invalid? ==> r.errors == ValidateFields(env, fields, v).errors
  {
    match ValidateFields(env, fields, v)
    case Valid(m) => Valid(build(m))
    case Invalid(e) => Invalid(e)
  }

  // ----- the after-validators the schemas attach -----

  const CurrencyCheck: After := After((l: CodeLists, s: string) => ValidateCurrency(l.currency, s), false)
  const CountryCheck: After := After((l: CodeLists, s: string) => ValidateCountry(l.country, s), false)
  const SniCodeCheck: After := After((l: CodeLists, s: string) => ValidateSniCode(l.sniCodes, s), false)
  const MerchantCategoryCodeCheck: After :=
    After((l: CodeLists, s: string) => ValidateMerchantCategoryCode(l.merchantCategoryCodes, s), false)
  /** `validate_locality` returns a falsy input, None included, unchanged. */
  const LocalityCheck: After := After((l: CodeLists, s: string) => ValidateLocality(l.localities, s), true)

  // ----- model validators -----

  /** A rule of a model validator: the error it appends, if it is violated. */
  function When(violated: bool, e: ErrorDetails): (r: Option<ErrorDetails>)
    ensures r.Some? <==> violated
    ensures r.Some? ==> r.value == e
  {
    if violated then Some(e) else None
  }

  /** The errors of the violated rules, in the order the rules are checked. */
  function Collect(rules: seq<Option<ErrorDetails>>): (errors: seq<ErrorDetails>)
    ensures |errors| <= |rules|
  {
    CollectFirst(rules, |rules|)
  }

  /** The errors of the first `k` rules. */
  function CollectFirst(rules: seq<Option<ErrorDetails>>, k: nat): (errors: seq<ErrorDetails>)
    requires k <= |rules|
    ensures |errors| <= k
  {
    if k == 0 then [] else CollectFirst(rules, k - 1) + Appended(rules[k - 1])
  }

  function Appended(rule: Option<ErrorDetails>): seq<ErrorDetails>
  {
    if rule.Some? then [rule.value] else []
  }

  /** No errors exactly when no rule is violated. */
  lemma CollectEmpty(rules: seq<Option<ErrorDetails>>)
    ensures Collect(rules) == [] <==> forall i :: 0 <= i < |rules| ==> rules[i].None?
  {
    CollectFirstEmpty(rules, |rules|);
  }

  lemma {:induction false} CollectFirstEmpty(rules: seq<Option<ErrorDetails>>, k: nat)
    requires k <= |rules|
    ensures CollectFirst(rules, k) == [] <==> forall i :: 0 <= i < k ==> rules[i].None?
  {
    if k > 0 {
      CollectFirstEmpty(rules, k - 1);
    }
  }

  /** Rules checked in two groups give no errors exactly when neither
      group gives any. */
  lemma CollectSplit(a: seq<Option<ErrorDetails>>, b: seq<Option<ErrorDetails>>)
    ensures Collect(a + b) == [] <==> Collect(a) == [] && Collect(b) == []
  {
    CollectEmpty(a);
    CollectEmpty(b);
    CollectEmpty(a + b);
    assert forall i :: 0 <= i < |a| ==> (a + b)[i] == a[i];
    assert forall i :: 0 <= i < |b| ==> (a + b)[|a| + i] == b[i];
    if Collect(a) == [] && Collect(b) == [] {
      forall i | 0 <= i < |a + b| ensures (a + b)[i].None? {
        if i >= |a| {
          assert (a + b)[i] == b[i - |a|];
        }
      }
    }
  }

  /** An error is reported exactly when some violated rule produces it. */
  lemma CollectMember(rules: seq<Option<ErrorDetails>>, e: ErrorDetails)
    ensures e in Collect(rules) <==> exists i :: 0 <= i < |rules| && rules[i] == Some(e)
  {
    CollectFirstMember(rules, |rules|, e);
  }

  lemma {:induction false} CollectFirstMember(rules: seq<Option<ErrorDetails>>, k: nat, e: ErrorDetails)
    requires k <= |rules|
    ensures e in CollectFirst(rules, k) <==> exists i :: 0 <= i < k && rules[i] == Some(e)
  {
    if k > 0 {
      CollectFirstMember(rules, k - 1, e);
      if e in CollectFirst(rules, k) && e !in CollectFirst(rules, k - 1) {
        assert rules[k - 1] == Some(e);
      }
    }
  }

  /** One error per violated rule. */
  lemma CollectCount(rules: seq<Option<ErrorDetails>>)
    ensures |Collect(rules)| == |set i | 0 <= i < |rules| && rules[i].Some?|
  {
    CollectFirstCount(rules, |rules|);
  }

  lemma {:induction false} CollectFirstCount(rules: seq<Option<ErrorDetails>>, k: nat)
    requires k <= |rules|
    ensures |CollectFirst(rules, k)| == |set i | 0 <= i < k && rules[i].Some?|
  {
    if k > 0 {
      CollectFirstCount(rules, k - 1);
      ViolatedStep(rules, k);
    }
  }

  /** The violated rules among the first `k`: those among the first `k - 1`,
      and rule `k - 1` when it is violated. */
  lemma ViolatedStep(rules: seq<Option<ErrorDetails>>, k: nat)
    requires 0 < k <= |rules|
    ensures |set i | 0 <= i < k && rules[i].Some?|
      == |set i | 0 <= i < k - 1 && rules[i].Some?| + (if rules[k - 1].Some? then 1 else 0)
  {
    var before := set i | 0 <= i < k - 1 && rules[i].Some?;
    var all := set i | 0 <= i < k && rules[i].Some?;
    if rules[k - 1].Some? {
      assert all == before + {k - 1};
      assert k - 1 !in before;
    } else {
      assert all == before;
    }
  }

  /** The two stages of pydantic: field validation first; the model
      validator, given as the errors it collects, only on a fully
      validated record. */
  function TwoStage<R>(fields: Outcome<R>, ruleErrors: R -> seq<ErrorDetails>): (r: Outcome<R>)
    ensures fields.Invalid? ==> r == fields
    ensures fields.Valid? ==> (r.Valid? <==> ruleErrors(fields.value) == [])
    ensures fields.Valid? && r.Valid? ==> r.value == fields.value
    ensures fields.Valid? && r.Invalid? ==> r.errors == ruleErrors(fields.value)
  {
    match fields
    case Invalid(e) => Invalid(e)
    case Valid(record) =>
      var errors := ruleErrors(record);
      if errors == [] then Valid(record) else Invalid(errors)
  }

  // ----- reading the typed values -----

  function StrAt(m: map<string, Typed>, k: string): string
  {
    if k in m && m[k].TStr? then m[k].s else ""
  }

  function OptStrAt(m: map<string, Typed>, k: string): Option<string>
  {
    if k in m && m[k].TStr? then Some(m[k].s) else None
  }

  function IntAt(m: map<string, Typed>, k: string): int
  {
    if k in m && m[k].TInt? then m[k].i else 0
  }

  function OptIntAt(m: map<string, Typed>, k: string): Option<int>
  {
    if k in m && m[k].TInt? then Some(m[k].i) else None
  }

  function CentsAt(m: map<string, Typed>, k: string): int
  {
    if k in m && m[k].TCents? then m[k].cents else 0
  }

  function OptFloatAt(m: map<string, Typed>, k: string): Option<Decimal>
  {
    if k in m && m[k].TFloat? then Some(m[k].f) else None
  }

  function DateAt(m: map<string, Typed>, k: string): Day
  {
    if k in m && m[k].TDate? then m[k].d else Date(1, 1, 1)
  }

  function OptDateAt(m: map<string, Typed>, k: string): Option<Day>
  {
    if k in m && m[k].TDate? then Some(m[k].d) else None
  }

  function OptDateTimeAt(m: map<string, Typed>, k: string): Option<Moment>
  {
    if k in m && m[k].TDateTime? then Some(m[k].t) else None
  }

  function DateTimeAt(m: map<string, Typed>, k: string): Moment
  {
    if k in m && m[k].TDateTime? then m[k].t else DateTime(Date(1, 1, 1), 0, 0, 0)
  }

  function ItemsAt(m: map<string, Typed>, k: string): seq<Value>
  {
    if k in m && m[k].TItems? then m[k].items else []
  }

  // ----- Python truthiness and f-string rendering -----

  predicate Truthy(o: Option<string>) { o.Some? && o.value != "" }

  predicate TruthyInt(o: Option<int>) { o.Some? && o.value != 0 }

  predicate TruthyFloat(o: Option<Decimal>) { o.Some? && !IsZero(o.value) }

  function ShowStr(o: Option<string>): string
  {
    if o.Some? then o.value else "None"
  }

  function ShowInt(o: Option<int>): string
  {
    if o.Some? then IntToString(o.value) else "None"
  }

  function ShowFloat(o: Option<Decimal>): string
  {
    if o.Some? then RenderDecimal(o.value) else "None"
  }

  function ShowDateTime(o: Option<Moment>): string
  {
    if o.Some? then FormatDateTime(o.value) else "None"
  }

  /** The JSON value a Python `str | None` stands for. */
  function StrOrNull(o: Option<string>): Value
  {
    if o.Some? then Str(o.value) else Null
  }

  // ----- the field checks as written -----

  /** The exception that aborts a field's validation as the source is
      written, if any: an explicit null reaching an after-validator that
      calls `.upper()`; a non-string reaching a before-validator built on
      `strptime` or `re.match`; an unsized value reaching `len()`. The
      texts are Python's, except for a date field's before-validator: the
      model does not tell a validator built on `strptime` from one built
      on `re.match`, so it gives only the exception's type there. */
  function CrashAsWritten(f: Field, v: Value): Option<string>
  {
    match f.kind
    case String(_, after) =>
      if v.Null? && !f.required && after.Some? && !after.value.handlesNone
      then Some("AttributeError: 'NoneType' object has no attribute 'upper'") else None
    case PastDate(before) =>
      if before.Some? && !v.Str? then Some("TypeError") else None
    case PastDatetime(reader) =>
      if !v.Str? && (reader.ViaParser? || !v.Null?)
      then Some("TypeError: strptime() argument 1 must be str, not " + PythonTypeWord(v)) else None
    case ItemList =>
      if !(v.Arr? || v.Str? || v.Obj?)
      then Some("TypeError: object of type '" + (if v.Null? then "NoneType" else PythonTypeWord(v)) + "' has no len()")
      else None
    case _ => None
  }

  /** A field's validation as written: the exception where the source
      raises one, and otherwise what the corrected check gives. */
  function CheckFieldAsWritten(env: Env, f: Field, members: seq<Member>): (r: Raised<Typed>)
    ensures Lookup(members, f.name).None? || CrashAsWritten(f, Lookup(members, f.name).value).None? ==>
      r == (match CheckField(env, f, members)
            case Success(t) => Returned(t)
            case Failure(e) => ValueError(e[0].msg))
    ensures Lookup(members, f.name).Some? && CrashAsWritten(f, Lookup(members, f.name).value).Some? ==> r.OtherError?
  {
    var raw := Lookup(members, f.name);
    if raw.Some? && CrashAsWritten(f, raw.value).Some? then OtherError(CrashAsWritten(f, raw.value).value)
    else match CheckField(env, f, members)
      case Success(t) => Returned(t)
      case Failure(e) => ValueError(e[0].msg)
  }

  /** The corrected checks never abort: an explicit null of an optional
      field is `None`, and a value of the wrong type is an error record. */
  lemma CorrectedNullIsNone(env: Env, f: Field, members: seq<Member>)
    requires !f.required && Lookup(members, f.name) == Some(Null)
    ensures CheckField(env, f, members) == Success(Absent)
  {
  }
}
