/** The items reported by payment-system operators: transactions in
    the system, the concentration ratio and the participants. None of them
    has a model validator; what they promise comes from the field
    constraints alone. */
module PaymentSystemOperatorsSchemas {
  import opened Wrappers
  import opened Text
  import opened Json
  import opened FieldValidationFunctions
  import opened Pydantic
  import opened FullEnums
  import opened PaymentSystemOperatorsEnums

  const BasePaymentSystemOperatorsFields: seq<Field> := [
    Field("id", String(None, None), true),
    Field("payment_system", StrEnum(PaymentSystem), true)
  ]

  datatype BasePaymentSystemOperators = BasePaymentSystemOperators(id: string, paymentSystem: string)

  function BasePaymentSystemOperatorsOf(m: map<string, Typed>): BasePaymentSystemOperators
  {
    BasePaymentSystemOperators(StrAt(m, "id"), StrAt(m, "payment_system"))
  }

  // ----- TransactionsInPaymentSystems -----

  const TransactionsInPaymentSystemsFields: seq<Field> := BasePaymentSystemOperatorsFields + [
    Field("payment_system_metric", StrEnum(PaymentSystemMetricTransactions), true),
    Field("payment_type", StrEnum(PaymentTypePaymentSystems), true),
    Field("number_of", Integer(1), true),
    Field("value_of_transactions", Money(0, None), true),
    Field("counterparty_country", String(None, Some(CountryCheck)), true)
  ]

  datatype TransactionsInPaymentSystems = TransactionsInPaymentSystems(
    base: BasePaymentSystemOperators,
    paymentSystemMetric: string,
    paymentType: string,
    numberOf: int,
    valueOfTransactions: int,   // hundredths
    counterpartyCountry: string)

  function TransactionsInPaymentSystemsOf(m: map<string, Typed>): TransactionsInPaymentSystems
  {
    TransactionsInPaymentSystems(BasePaymentSystemOperatorsOf(m), StrAt(m, "payment_system_metric"), StrAt(m, "payment_type"),
                                 IntAt(m, "number_of"), CentsAt(m, "value_of_transactions"), StrAt(m, "counterparty_country"))
  }

  function ValidateTransactionsInPaymentSystems(env: Env, v: Value): (r: Outcome<TransactionsInPaymentSystems>)
  {
    ParseWith(env, TransactionsInPaymentSystemsFields, v, TransactionsInPaymentSystemsOf)
  }

  lemma TransactionsFieldsAt()
    ensures TransactionsInPaymentSystemsFields[4] == Field("number_of", Integer(1), true)
    ensures TransactionsInPaymentSystemsFields[5] == Field("value_of_transactions", Money(0, None), true)
    ensures TransactionsInPaymentSystemsFields[6] == Field("counterparty_country", String(None, Some(CountryCheck)), true)
    ensures FirstNamed(TransactionsInPaymentSystemsFields, 4) && FirstNamed(TransactionsInPaymentSystemsFields, 5)
    ensures FirstNamed(TransactionsInPaymentSystemsFields, 6)
    ensures TransactionsInPaymentSystemsFields[2] == Field("payment_system_metric", StrEnum(PaymentSystemMetricTransactions), true)
    ensures FirstNamed(TransactionsInPaymentSystemsFields, 2)
  {
  }

  /** A validated transaction count is at least one and its value is not
      negative. */
  lemma ValidatedTransactionAmounts(env: Env, v: Value)
    requires ValidateFields(env, TransactionsInPaymentSystemsFields, v).Valid?
    ensures var m := ValidateFields(env, TransactionsInPaymentSystemsFields, v).value;
      IntAt(m, "number_of") >= 1 && CentsAt(m, "value_of_transactions") >= 0
  {
    TransactionsFieldsAt();
    ValidInteger(env, TransactionsInPaymentSystemsFields, v, 4);
    ValidMoney(env, TransactionsInPaymentSystemsFields, v, 5);
  }

  /** The metric of a validated transactions record is the transactions
      metric. */
  lemma ValidatedTransactionsMetric(env: Env, v: Value)
    requires ValidateFields(env, TransactionsInPaymentSystemsFields, v).Valid?
    ensures StrAt(ValidateFields(env, TransactionsInPaymentSystemsFields, v).value, "payment_system_metric") == "T"
  {
    TransactionsFieldsAt();
    ValidStrEnum(env, TransactionsInPaymentSystemsFields, v, 2);
  }

  /** The counterparty country of a validated record is an upper-case
      listed country. */
  lemma ValidatedCounterpartyCountry(env: Env, v: Value)
    requires ValidateFields(env, TransactionsInPaymentSystemsFields, v).Valid?
    ensures var c := StrAt(ValidateFields(env, TransactionsInPaymentSystemsFields, v).value, "counterparty_country");
      c in env.lists.country && NoLower(c)
  {
    TransactionsFieldsAt();
    ValidChecked(env, TransactionsInPaymentSystemsFields, v, 6);
    UpperNormalizes(Lookup(v.members, "counterparty_country").value.s);
  }

  // ----- ConcentrationRatio -----

  const ConcentrationRatioFields: seq<Field> := BasePaymentSystemOperatorsFields + [
    Field("payment_system_metric", StrEnum(PaymentSystemMetricConcentration), true),
    Field("concentration_ratio_type", IntEnum(ConcentrationRatioType), true),
    Field("concentration_ratio_value", Money(0, Some(100)), true)
  ]

  datatype ConcentrationRatio = ConcentrationRatio(
    base: BasePaymentSystemOperators,
    paymentSystemMetric: string,
    concentrationRatioType: int,
    concentrationRatioValue: int)   // hundredths

  function ConcentrationRatioOf(m: map<string, Typed>): ConcentrationRatio
  {
    ConcentrationRatio(BasePaymentSystemOperatorsOf(m), StrAt(m, "payment_system_metric"), IntAt(m, "concentration_ratio_type"),
                       CentsAt(m, "concentration_ratio_value"))
  }

  function ValidateConcentrationRatio(env: Env, v: Value): (r: Outcome<ConcentrationRatio>)
  {
    ParseWith(env, ConcentrationRatioFields, v, ConcentrationRatioOf)
  }

  lemma ConcentrationFieldsAt()
    ensures ConcentrationRatioFields[2] == Field("payment_system_metric", StrEnum(PaymentSystemMetricConcentration), true)
    ensures ConcentrationRatioFields[4] == Field("concentration_ratio_value", Money(0, Some(100)), true)
    ensures FirstNamed(ConcentrationRatioFields, 2) && FirstNamed(ConcentrationRatioFields, 4)
  {
  }

  /** A validated concentration ratio is a share between 0.00 and 1.00,
      and its metric is the concentration metric. */
  lemma ValidatedConcentrationRatio(env: Env, v: Value)
    requires ValidateFields(env, ConcentrationRatioFields, v).Valid?
    ensures var m := ValidateFields(env, ConcentrationRatioFields, v).value;
      0 <= CentsAt(m, "concentration_ratio_value") <= 100 && StrAt(m, "payment_system_metric") == "C"
  {
    ConcentrationFieldsAt();
    ValidMoney(env, ConcentrationRatioFields, v, 4);
    ValidStrEnum(env, ConcentrationRatioFields, v, 2);
  }

  // ----- ParticipantsInPaymentSystems -----

  const ParticipantsInPaymentSystemsFields: seq<Field> := BasePaymentSystemOperatorsFields + [
    Field("payment_system_metric", StrEnum(PaymentSystemMetricParticipants), true),
    Field("number_of_participants", Integer(0), true),
    Field("participant_type", IntEnum(ParticipantType), true),
    Field("participant_sector", StrEnum(ParticipantSector), true)
  ]

  datatype ParticipantsInPaymentSystems = ParticipantsInPaymentSystems(
    base: BasePaymentSystemOperators,
    paymentSystemMetric: string,
    numberOfParticipants: int,
    participantType: int,
    participantSector: string)

  function ParticipantsInPaymentSystemsOf(m: map<string, Typed>): ParticipantsInPaymentSystems
  {
    ParticipantsInPaymentSystems(BasePaymentSystemOperatorsOf(m), StrAt(m, "payment_system_metric"),
                                 IntAt(m, "number_of_participants"), IntAt(m, "participant_type"),
                                 StrAt(m, "participant_sector"))
  }

  function ValidateParticipantsInPaymentSystems(env: Env, v: Value): (r: Outcome<ParticipantsInPaymentSystems>)
  {
    ParseWith(env, ParticipantsInPaymentSystemsFields, v, ParticipantsInPaymentSystemsOf)
  }

  lemma ParticipantsFieldsAt()
    ensures ParticipantsInPaymentSystemsFields[3] == Field("number_of_participants", Integer(0), true)
    ensures FirstNamed(ParticipantsInPaymentSystemsFields, 3)
    ensures ParticipantsInPaymentSystemsFields[2] == Field("payment_system_metric", StrEnum(PaymentSystemMetricParticipants), true)
    ensures FirstNamed(ParticipantsInPaymentSystemsFields, 2)
  {
  }

  /** The metric of a validated participants record is the participants
      metric. */
  lemma ValidatedParticipantsMetric(env: Env, v: Value)
    requires ValidateFields(env, ParticipantsInPaymentSystemsFields, v).Valid?
    ensures StrAt(ValidateFields(env, ParticipantsInPaymentSystemsFields, v).value, "payment_system_metric") == "P"
  {
    ParticipantsFieldsAt();
    ValidStrEnum(env, ParticipantsInPaymentSystemsFields, v, 2);
  }

  /** A validated participant count is not negative. */
  lemma ValidatedParticipants(env: Env, v: Value)
    requires ValidateFields(env, ParticipantsInPaymentSystemsFields, v).Valid?
    ensures IntAt(ValidateFields(env, ParticipantsInPaymentSystemsFields, v).value, "number_of_participants") >= 0
  {
    ParticipantsFieldsAt();
    ValidInteger(env, ParticipantsInPaymentSystemsFields, v, 3);
  }
}
