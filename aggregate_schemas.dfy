/** The items reported as daily aggregates: e-money payments, money
    remittances, over-the-counter cash and payment initiation services.
    Each is a closed model over the base aggregate fields; its model
    validator checks the transaction day against the reporting period and,
    for over-the-counter cash, the payment type against the header's. */
module AggregateSchemas {
  import opened Wrappers
  import opened Text
  import opened Calendar
  import opened Json
  import opened FieldValidationFunctions
  import opened Pydantic
  import opened ModelValidationFunctions
  import opened FullEnums
  import opened AggregatesEnums
  import TypeMapping

  // ----- BaseAggregate -----

  const BaseAggregateFields: seq<Field> := [
    Field("id", String(None, None), true),
    Field("transaction_day", PastDate(Some(ValidateDate)), true),
    Field("number_of", Integer(1), true),
    Field("transaction_value", Money(0, None), true),
    Field("transaction_currency", String(None, Some(CurrencyCheck)), true),
    Field("reported_payment_type", StrEnum(PaymentTypeAggregates), false),
    Field("date_from", PastDate(None), false),
    Field("date_to", PastDate(None), false)
  ]

  /** The base fields of a validated aggregate; money in hundredths. */
  datatype BaseAggregate = BaseAggregate(
    id: string,
    transactionDay: Day,
    numberOf: int,
    transactionValue: int,
    transactionCurrency: string,
    reportedPaymentType: Option<string>,
    dateFrom: Option<Day>,
    dateTo: Option<Day>)
  {
    /** A day is always truthy, so only the two period ends matter. */
    function DayOutsidePeriod(): Option<ErrorDetails>
    {
      if dateFrom.Some? && dateTo.Some?
      then ValidateTransactionDayBetweenDates(transactionDay, dateFrom.value, dateTo.value) else None
    }

    predicate InPeriod()
    {
      dateFrom.Some? && dateTo.Some? ==> Within(transactionDay, dateFrom.value, dateTo.value)
    }
  }

  function BaseAggregateOf(m: map<string, Typed>): BaseAggregate
  {
    BaseAggregate(StrAt(m, "id"), DateAt(m, "transaction_day"), IntAt(m, "number_of"), CentsAt(m, "transaction_value"),
                  StrAt(m, "transaction_currency"), OptStrAt(m, "reported_payment_type"),
                  OptDateAt(m, "date_from"), OptDateAt(m, "date_to"))
  }

  /** A record that starts with the base fields holds each of them first
      under its own name. */
  lemma BaseFieldAt(fields: seq<Field>, i: int)
    requires |fields| >= 8 && fields[..8] == BaseAggregateFields && 0 <= i < 8
    ensures fields[i] == BaseAggregateFields[i] && FirstNamed(fields, i)
  {
    assert forall j :: 0 <= j < 8 ==> fields[j] == BaseAggregateFields[j];
  }

  /** The base fields of a validated aggregate: at least one transaction,
      a value of at least 0 in whole hundredths, an upper-case listed
      currency, and a header payment type from the aggregate types. */
  lemma ValidatedBaseAggregate(env: Env, fields: seq<Field>, v: Value)
    requires |fields| >= 8 && fields[..8] == BaseAggregateFields
    requires ValidateFields(env, fields, v).Valid?
    ensures var b := BaseAggregateOf(ValidateFields(env, fields, v).value);
      b.numberOf >= 1 && b.transactionValue >= 0 && b.transactionCurrency in env.lists.currency && NoLower(b.transactionCurrency)
      && (b.reportedPaymentType.Some? ==> b.reportedPaymentType.value in PaymentTypeAggregates)
  {
    ValidatedNumberOf(env, fields, v);
    ValidatedValue(env, fields, v);
    ValidatedCurrency(env, fields, v);
    ValidatedReportedType(env, fields, v);
  }

  lemma ValidatedNumberOf(env: Env, fields: seq<Field>, v: Value)
    requires |fields| >= 8 && fields[..8] == BaseAggregateFields
    requires ValidateFields(env, fields, v).Valid?
    ensures IntAt(ValidateFields(env, fields, v).value, "number_of") >= 1
  {
    BaseFieldAt(fields, 2);
    ValidInteger(env, fields, v, 2);
  }

  lemma ValidatedValue(env: Env, fields: seq<Field>, v: Value)
    requires |fields| >= 8 && fields[..8] == BaseAggregateFields
    requires ValidateFields(env, fields, v).Valid?
    ensures CentsAt(ValidateFields(env, fields, v).value, "transaction_value") >= 0
  {
    BaseFieldAt(fields, 3);
    ValidMoney(env, fields, v, 3);
  }

  lemma ValidatedCurrency(env: Env, fields: seq<Field>, v: Value)
    requires |fields| >= 8 && fields[..8] == BaseAggregateFields
    requires ValidateFields(env, fields, v).Valid?
    ensures var c := StrAt(ValidateFields(env, fields, v).value, "transaction_currency");
      c in env.lists.currency && NoLower(c)
  {
    BaseFieldAt(fields, 4);
    ValidChecked(env, fields, v, 4);
    UpperNormalizes(Lookup(v.members, "transaction_currency").value.s);
  }

  lemma ValidatedReportedType(env: Env, fields: seq<Field>, v: Value)
    requires |fields| >= 8 && fields[..8] == BaseAggregateFields
    requires ValidateFields(env, fields, v).Valid?
    ensures var t := OptStrAt(ValidateFields(env, fields, v).value, "reported_payment_type");
      t.Some? ==> t.value in PaymentTypeAggregates
  {
    BaseFieldAt(fields, 5);
    ValidStrEnum(env, fields, v, 5);
  }

  /** A variant whose payment type has a single code needs no comparison
      with the header's: the dispatch table sends an item to that variant
      only under a code of the variant's own enumeration, and the
      variant's payment_type field takes only that code, so the two agree
      on every item that validates. */
  lemma SingleTypeNeedsNoComparison(k: int, paymentType: string, reported: string)
    requires 0 <= k < |TypeMapping.TypesToValidator| && |TypeMapping.TypesToValidator[k].types| == 1
    requires reported in TypeMapping.Build(TypeMapping.TypesToValidator)
    requires TypeMapping.Build(TypeMapping.TypesToValidator)[reported] == TypeMapping.TypesToValidator[k].validator
    requires paymentType in TypeMapping.TypesToValidator[k].types
    ensures ValidatePaymentTypeAndReportedPaymentType(paymentType, reported).None?
  {
    TypeMapping.SelectedCodeIsOwn(reported, k);
  }

  /** The payment type of a validated aggregate is one of its
      enumeration's codes. */
  lemma ValidatedPaymentType(env: Env, fields: seq<Field>, codes: seq<string>, v: Value)
    requires |fields| > 8 && fields[..8] == BaseAggregateFields && fields[8] == Field("payment_type", StrEnum(codes), true)
    requires ValidateFields(env, fields, v).Valid?
    ensures StrAt(ValidateFields(env, fields, v).value, "payment_type") in codes
  {
    PaymentTypeFieldAt(fields);
    ValidStrEnum(env, fields, v, 8);
  }

  /** The field after the base fields is the first of its name. */
  lemma PaymentTypeFieldAt(fields: seq<Field>)
    requires |fields| > 8 && fields[..8] == BaseAggregateFields && fields[8].name == "payment_type"
    ensures FirstNamed(fields, 8)
  {
    assert forall j :: 0 <= j < 8 ==> fields[j] == BaseAggregateFields[j];
  }

  // ----- EMoney -----

  const EMoneyFields: seq<Field> := BaseAggregateFields + [
    Field("payment_type", StrEnum(PaymentTypeEMoney), true),
    Field("counterparty_country", String(None, Some(CountryCheck)), true),
    Field("role_in_transaction", IntEnum(RoleInTransaction), true),
    Field("payment_service_user", StrEnum(PaymentServiceUserEMoney), true),
    Field("initiation_channel", IntEnum(InitiationChannelEMoney), true),
    Field("remote_initiation", StrEnum(RemoteInitiation), true)
  ]

  datatype EMoney = EMoney(
    base: BaseAggregate,
    paymentType: string,
    counterpartyCountry: string,
    roleInTransaction: int,
    paymentServiceUser: string,
    initiationChannel: int,
    remoteInitiation: string)
  {
    /** The rules of `validate_model`: the period only, the payment type
        having the single code `EMP0`. */
    function Rules(): seq<Option<ErrorDetails>>
    {
      [base.DayOutsidePeriod()]
    }

    predicate Acceptable() { base.InPeriod() }

    lemma RulesAcceptExactly()
      ensures Collect(Rules()) == [] <==> Acceptable()
      ensures |Collect(Rules())| == |set i | 0 <= i < |Rules()| && Rules()[i].Some?|
    {
      assert CollectFirst(Rules(), 1) == CollectFirst(Rules(), 0) + Appended(Rules()[0]);
      CollectCount(Rules());
    }
  }

  function EMoneyOf(m: map<string, Typed>): EMoney
  {
    EMoney(BaseAggregateOf(m), StrAt(m, "payment_type"), StrAt(m, "counterparty_country"), IntAt(m, "role_in_transaction"),
           StrAt(m, "payment_service_user"), IntAt(m, "initiation_channel"), StrAt(m, "remote_initiation"))
  }

  function ValidateEMoney(env: Env, v: Value): (r: Outcome<EMoney>)
  {
    TwoStage(ParseWith(env, EMoneyFields, v, EMoneyOf), (c: EMoney) => Collect(c.Rules()))
  }

  /** An e-money aggregate validates exactly when its fields do and its
      day lies in the period; field errors leave the rule unchecked. */
  lemma EMoneyPipeline(env: Env, v: Value)
    ensures ValidateFields(env, EMoneyFields, v).Invalid? ==>
      ValidateEMoney(env, v) == Invalid(ValidateFields(env, EMoneyFields, v).errors)
    ensures ValidateEMoney(env, v).Valid? <==>
      ValidateFields(env, EMoneyFields, v).Valid? && EMoneyOf(ValidateFields(env, EMoneyFields, v).value).Acceptable()
  {
    if ValidateFields(env, EMoneyFields, v).Valid? {
      EMoneyOf(ValidateFields(env, EMoneyFields, v).value).RulesAcceptExactly();
    }
  }

  // ----- MoneyRemittances -----

  /** transaction_day is declared again, with the same type, and keeps its
      place among the base fields. */
  const MoneyRemittancesFields: seq<Field> := BaseAggregateFields + [
    Field("payment_type", StrEnum(PaymentTypeMoneyRemittances), true),
    Field("counterparty_country", String(None, Some(CountryCheck)), true),
    Field("initiation_country", String(None, Some(CountryCheck)), true),
    Field("role_in_transaction", IntEnum(RoleInTransaction), true),
    Field("payment_service_user", StrEnum(PaymentServiceUser), true)
  ]

  datatype MoneyRemittances = MoneyRemittances(
    base: BaseAggregate,
    paymentType: string,
    counterpartyCountry: string,
    initiationCountry: string,
    roleInTransaction: int,
    paymentServiceUser: string)
  {
    /** The rules of `validate_model`: the period only, the payment type
        having the single code `MREM`. */
    function Rules(): seq<Option<ErrorDetails>>
    {
      [base.DayOutsidePeriod()]
    }

    predicate Acceptable() { base.InPeriod() }

    lemma RulesAcceptExactly()
      ensures Collect(Rules()) == [] <==> Acceptable()
      ensures |Collect(Rules())| == |set i | 0 <= i < |Rules()| && Rules()[i].Some?|
    {
      assert CollectFirst(Rules(), 1) == CollectFirst(Rules(), 0) + Appended(Rules()[0]);
      CollectCount(Rules());
    }
  }

  function MoneyRemittancesOf(m: map<string, Typed>): MoneyRemittances
  {
    MoneyRemittances(BaseAggregateOf(m), StrAt(m, "payment_type"), StrAt(m, "counterparty_country"),
                     StrAt(m, "initiation_country"), IntAt(m, "role_in_transaction"), StrAt(m, "payment_service_user"))
  }

  function ValidateMoneyRemittances(env: Env, v: Value): (r: Outcome<MoneyRemittances>)
  {
    TwoStage(ParseWith(env, MoneyRemittancesFields, v, MoneyRemittancesOf), (c: MoneyRemittances) => Collect(c.Rules()))
  }

  /** A money-remittance aggregate validates exactly when its fields do and
      its day lies in the period. */
  lemma MoneyRemittancesPipeline(env: Env, v: Value)
    ensures ValidateFields(env, MoneyRemittancesFields, v).Invalid? ==>
      ValidateMoneyRemittances(env, v) == Invalid(ValidateFields(env, MoneyRemittancesFields, v).errors)
    ensures ValidateMoneyRemittances(env, v).Valid? <==>
      ValidateFields(env, MoneyRemittancesFields, v).Valid?
      && MoneyRemittancesOf(ValidateFields(env, MoneyRemittancesFields, v).value).Acceptable()
  {
    if ValidateFields(env, MoneyRemittancesFields, v).Valid? {
      MoneyRemittancesOf(ValidateFields(env, MoneyRemittancesFields, v).value).RulesAcceptExactly();
    }
  }

  // ----- OTC -----

  const OTCFields: seq<Field> := BaseAggregateFields + [
    Field("payment_type", StrEnum(PaymentTypeOTC), true),
    Field("payment_service_user", StrEnum(PaymentServiceUserOTC), true)
  ]

  datatype OTC = OTC(
    base: BaseAggregate,
    paymentType: string,
    paymentServiceUser: string)
  {
    function PaymentTypeMismatch(): Option<ErrorDetails>
    {
      if base.reportedPaymentType.Some?
      then ValidatePaymentTypeAndReportedPaymentType(paymentType, base.reportedPaymentType.value) else None
    }

    /** The rules of `validate_model`: an over-the-counter item is a deposit
        or a withdrawal, so its type is compared with the header's. */
    function Rules(): seq<Option<ErrorDetails>>
    {
      [PaymentTypeMismatch(), base.DayOutsidePeriod()]
    }

    predicate Acceptable()
    {
      (base.reportedPaymentType.Some? ==> base.reportedPaymentType.value == paymentType) && base.InPeriod()
    }

    lemma RulesAcceptExactly()
      ensures Collect(Rules()) == [] <==> Acceptable()
      ensures |Collect(Rules())| == |set i | 0 <= i < |Rules()| && Rules()[i].Some?|
    {
      var rules := Rules();
      assert CollectFirst(rules, 1) == CollectFirst(rules, 0) + Appended(rules[0]);
      assert CollectFirst(rules, 2) == CollectFirst(rules, 1) + Appended(rules[1]);
      CollectCount(rules);
    }
  }

  function OTCOf(m: map<string, Typed>): OTC
  {
    OTC(BaseAggregateOf(m), StrAt(m, "payment_type"), StrAt(m, "payment_service_user"))
  }

  function ValidateOTC(env: Env, v: Value): (r: Outcome<OTC>)
  {
    TwoStage(ParseWith(env, OTCFields, v, OTCOf), (c: OTC) => Collect(c.Rules()))
  }

  /** An over-the-counter aggregate validates exactly when its fields do,
      its type is the header's and its day lies in the period. */
  lemma OTCPipeline(env: Env, v: Value)
    ensures ValidateFields(env, OTCFields, v).Invalid? ==> ValidateOTC(env, v) == Invalid(ValidateFields(env, OTCFields, v).errors)
    ensures ValidateOTC(env, v).Valid? <==>
      ValidateFields(env, OTCFields, v).Valid? && OTCOf(ValidateFields(env, OTCFields, v).value).Acceptable()
  {
    if ValidateFields(env, OTCFields, v).Valid? {
      OTCOf(ValidateFields(env, OTCFields, v).value).RulesAcceptExactly();
    }
  }

  // ----- PaymentInitiationServices -----

  const PaymentInitiationServicesFields: seq<Field> := BaseAggregateFields + [
    Field("payment_type", StrEnum(PaymentTypePaymentInitiationServices), true),
    Field("pisp_initiated_transaction", StrEnum(PispInitiatedTransaction), true),
    Field("counterparty_country", String(None, Some(CountryCheck)), true),
    Field("initiation_country", String(None, Some(CountryCheck)), true),
    Field("payment_service_user", StrEnum(PaymentServiceUser), true),
    Field("remote_initiation", StrEnum(RemoteInitiation), true)
  ]

  datatype PaymentInitiationServices = PaymentInitiationServices(
    base: BaseAggregate,
    paymentType: string,
    pispInitiatedTransaction: string,
    counterpartyCountry: string,
    initiationCountry: string,
    paymentServiceUser: string,
    remoteInitiation: string)
  {
    /** The rules of `validate_model`: the period only, the payment type
        having the single code `PI`. */
    function Rules(): seq<Option<ErrorDetails>>
    {
      [base.DayOutsidePeriod()]
    }

    predicate Acceptable() { base.InPeriod() }

    lemma RulesAcceptExactly()
      ensures Collect(Rules()) == [] <==> Acceptable()
      ensures |Collect(Rules())| == |set i | 0 <= i < |Rules()| && Rules()[i].Some?|
    {
      assert CollectFirst(Rules(), 1) == CollectFirst(Rules(), 0) + Appended(Rules()[0]);
      CollectCount(Rules());
    }
  }

  function PaymentInitiationServicesOf(m: map<string, Typed>): PaymentInitiationServices
  {
    PaymentInitiationServices(BaseAggregateOf(m), StrAt(m, "payment_type"), StrAt(m, "pisp_initiated_transaction"),
                              StrAt(m, "counterparty_country"), StrAt(m, "initiation_country"),
                              StrAt(m, "payment_service_user"), StrAt(m, "remote_initiation"))
  }

  function ValidatePaymentInitiationServices(env: Env, v: Value): (r: Outcome<PaymentInitiationServices>)
  {
    TwoStage(ParseWith(env, PaymentInitiationServicesFields, v, PaymentInitiationServicesOf),
             (c: PaymentInitiationServices) => Collect(c.Rules()))
  }

  /** A payment-initiation aggregate validates exactly when its fields do
      and its day lies in the period. */
  lemma PaymentInitiationServicesPipeline(env: Env, v: Value)
    ensures ValidateFields(env, PaymentInitiationServicesFields, v).Invalid? ==>
      ValidatePaymentInitiationServices(env, v) == Invalid(ValidateFields(env, PaymentInitiationServicesFields, v).errors)
    ensures ValidatePaymentInitiationServices(env, v).Valid? <==>
      ValidateFields(env, PaymentInitiationServicesFields, v).Valid?
      && PaymentInitiationServicesOf(ValidateFields(env, PaymentInitiationServicesFields, v).value).Acceptable()
  {
    if ValidateFields(env, PaymentInitiationServicesFields, v).Valid? {
      PaymentInitiationServicesOf(ValidateFields(env, PaymentInitiationServicesFields, v).value).RulesAcceptExactly();
    }
  }

  // ----- The payment type comparison -----

  /** An e-money item, reached through the table under `EMP0`, always
      carries the header's payment type. */
  lemma EMoneyNeedsNoComparison(env: Env, v: Value, reported: string)
    requires reported in TypeMapping.Build(TypeMapping.TypesToValidator)
    requires TypeMapping.Build(TypeMapping.TypesToValidator)[reported] == TypeMapping.EMoney
    requires ValidateFields(env, EMoneyFields, v).Valid?
    ensures ValidatePaymentTypeAndReportedPaymentType(EMoneyOf(ValidateFields(env, EMoneyFields, v).value).paymentType, reported).None?
  {
    TypeMapping.SingleCodeEntries();
    ValidatedPaymentType(env, EMoneyFields, TypeMapping.TypesToValidator[6].types, v);
    SingleTypeNeedsNoComparison(6, EMoneyOf(ValidateFields(env, EMoneyFields, v).value).paymentType, reported);
  }

  /** The same for a money remittance, reached under `MREM`. */
  lemma MoneyRemittancesNeedNoComparison(env: Env, v: Value, reported: string)
    requires reported in TypeMapping.Build(TypeMapping.TypesToValidator)
    requires TypeMapping.Build(TypeMapping.TypesToValidator)[reported] == TypeMapping.MoneyRemittances
    requires ValidateFields(env, MoneyRemittancesFields, v).Valid?
    ensures ValidatePaymentTypeAndReportedPaymentType(
      MoneyRemittancesOf(ValidateFields(env, MoneyRemittancesFields, v).value).paymentType, reported).None?
  {
    TypeMapping.SingleCodeEntries();
    ValidatedPaymentType(env, MoneyRemittancesFields, TypeMapping.TypesToValidator[8].types, v);
    SingleTypeNeedsNoComparison(8, MoneyRemittancesOf(ValidateFields(env, MoneyRemittancesFields, v).value).paymentType, reported);
  }

  /** The same for a payment initiation service, reached under `PI`. */
  lemma PaymentInitiationServicesNeedNoComparison(env: Env, v: Value, reported: string)
    requires reported in TypeMapping.Build(TypeMapping.TypesToValidator)
    requires TypeMapping.Build(TypeMapping.TypesToValidator)[reported] == TypeMapping.PaymentInitiationServices
    requires ValidateFields(env, PaymentInitiationServicesFields, v).Valid?
    ensures ValidatePaymentTypeAndReportedPaymentType(
      PaymentInitiationServicesOf(ValidateFields(env, PaymentInitiationServicesFields, v).value).paymentType, reported).None?
  {
    TypeMapping.SingleCodeEntries();
    ValidatedPaymentType(env, PaymentInitiationServicesFields, TypeMapping.TypesToValidator[9].types, v);
    SingleTypeNeedsNoComparison(9, PaymentInitiationServicesOf(ValidateFields(env, PaymentInitiationServicesFields, v).value).paymentType, reported);
  }
}
