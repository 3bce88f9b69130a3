/** Direct debits: one record per combination of payment type,
    initiation channel and currency. There is no model validator. */
module DirectDebitsSchema {
  import opened Wrappers
  import opened Text
  import opened Json
  import opened FieldValidationFunctions
  import opened Pydantic
  import opened DirectDebitsEnums

  const DirectDebitsFields: seq<Field> := [
    Field("id", String(None, None), true),
    Field("number_of", Integer(1), true),
    Field("transaction_value", Money(0, None), true),
    Field("transaction_currency", String(None, Some(CurrencyCheck)), true),
    Field("payment_type", StrEnum(PaymentTypeDirectDebits), true),
    Field("initiation_channel", IntEnum(InitiationChannelDirectDebits), true)
  ]

  datatype DirectDebits = DirectDebits(
    id: string,
    numberOf: int,
    transactionValue: int,   // hundredths
    transactionCurrency: string,
    paymentType: string,
    initiationChannel: int)

  function DirectDebitsOf(m: map<string, Typed>): DirectDebits
  {
    DirectDebits(StrAt(m, "id"), IntAt(m, "number_of"), CentsAt(m, "transaction_value"), StrAt(m, "transaction_currency"),
                 StrAt(m, "payment_type"), IntAt(m, "initiation_channel"))
  }

  function ValidateDirectDebits(env: Env, v: Value): (r: Outcome<DirectDebits>)
  {
    ParseWith(env, DirectDebitsFields, v, DirectDebitsOf)
  }

  lemma FieldsAt()
    ensures DirectDebitsFields[1] == Field("number_of", Integer(1), true)
    ensures DirectDebitsFields[2] == Field("transaction_value", Money(0, None), true)
    ensures DirectDebitsFields[3] == Field("transaction_currency", String(None, Some(CurrencyCheck)), true)
    ensures DirectDebitsFields[5] == Field("initiation_channel", IntEnum(InitiationChannelDirectDebits), true)
    ensures FirstNamed(DirectDebitsFields, 1) && FirstNamed(DirectDebitsFields, 2)
    ensures FirstNamed(DirectDebitsFields, 3) && FirstNamed(DirectDebitsFields, 5)
  {
  }

  /** A validated record counts at least one debit of a non-negative
      value, through one of the three direct-debit channels. */
  lemma ValidatedDirectDebits(env: Env, v: Value)
    requires ValidateFields(env, DirectDebitsFields, v).Valid?
    ensures var d := DirectDebitsOf(ValidateFields(env, DirectDebitsFields, v).value);
      d.numberOf >= 1 && d.transactionValue >= 0 && d.initiationChannel in InitiationChannelDirectDebits
  {
    FieldsAt();
    ValidInteger(env, DirectDebitsFields, v, 1);
    ValidMoney(env, DirectDebitsFields, v, 2);
    ValidIntEnum(env, DirectDebitsFields, v, 5);
  }

  /** The currency of a validated record is an upper-case listed
      currency. */
  lemma ValidatedCurrency(env: Env, v: Value)
    requires ValidateFields(env, DirectDebitsFields, v).Valid?
    ensures var c := StrAt(ValidateFields(env, DirectDebitsFields, v).value, "transaction_currency");
      c in env.lists.currency && NoLower(c)
  {
    FieldsAt();
    ValidChecked(env, DirectDebitsFields, v, 3);
    UpperNormalizes(Lookup(v.members, "transaction_currency").value.s);
  }
}
