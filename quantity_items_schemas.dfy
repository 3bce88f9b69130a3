/** The items reported as quantities at the end of the period: cards,
    payment accounts, POS terminals, e-money card terminals and ATMs. Only
    the card count has a model validator; it stops at the first rule that
    fails, so a card record gets at most one model error. */
module QuantityItemsSchemas {
  import opened Wrappers
  import opened Text
  import opened Json
  import opened FieldValidationFunctions
  import opened Pydantic
  import opened FullEnums
  import opened QuantityItemsEnums

  // ----- BaseQuantityItems -----

  const BaseQuantityItemsFields: seq<Field> := [
    Field("id", String(None, None), true),
    Field("number_of", Integer(0), true)
  ]

  /** The terminals add the country they stand in. */
  const BaseQuantityItemsMerchantLocationFields: seq<Field> := BaseQuantityItemsFields + [
    Field("merchant_location", String(None, Some(CountryCheck)), true)
  ]

  datatype BaseQuantityItems = BaseQuantityItems(id: string, numberOf: int)

  function BaseQuantityItemsOf(m: map<string, Typed>): BaseQuantityItems
  {
    BaseQuantityItems(StrAt(m, "id"), IntAt(m, "number_of"))
  }

  /** A validated quantity is never negative. */
  lemma ValidatedNumberOf(env: Env, fields: seq<Field>, v: Value)
    requires |fields| >= 2 && fields[..2] == BaseQuantityItemsFields
    requires ValidateFields(env, fields, v).Valid?
    ensures BaseQuantityItemsOf(ValidateFields(env, fields, v).value).numberOf >= 0
  {
    assert fields[0] == BaseQuantityItemsFields[0] && fields[1] == BaseQuantityItemsFields[1];
    ValidInteger(env, fields, v, 1);
  }

  lemma MerchantLocationAt(fields: seq<Field>)
    requires |fields| >= 3 && fields[..3] == BaseQuantityItemsMerchantLocationFields
    ensures fields[2] == Field("merchant_location", String(None, Some(CountryCheck)), true)
    ensures FirstNamed(fields, 2)
  {
    assert forall j :: 0 <= j < 3 ==> fields[j] == BaseQuantityItemsMerchantLocationFields[j];
  }

  /** A validated merchant location is an upper-case listed country. */
  lemma ValidatedMerchantLocation(env: Env, fields: seq<Field>, v: Value)
    requires |fields| >= 3 && fields[..3] == BaseQuantityItemsMerchantLocationFields
    requires ValidateFields(env, fields, v).Valid?
    ensures var c := StrAt(ValidateFields(env, fields, v).value, "merchant_location");
      c in env.lists.country && NoLower(c)
  {
    MerchantLocationAt(fields);
    ValidChecked(env, fields, v, 2);
    UpperNormalizes(Lookup(v.members, "merchant_location").value.s);
  }

  // ----- Cards -----

  /** The card functions with and without an e-money function. */
  const EMoneyCardFunctions: seq<string> := ["CF3", "CF5", "CF6"]
  const PlainCardFunctions: seq<string> := ["CF1", "CF2", "CF4"]

  const EMoneyFunctionMissingMessage: string := "Attribute e-money function has to be reported when the card has e-money functions."
  const EMoneyFunctionReportedMessage: string := "Attribute e-money function should not to be reported when the card hasn't e-money functions."

  const CardsFields: seq<Field> := BaseQuantityItemsFields + [
    Field("quantity_item", StrEnum(QuantityItemsCard), true),
    Field("payment_service_user", StrEnum(PaymentServiceUserCard), true),
    Field("payment_scheme", StrEnum(PaymentSchemeCard), true),
    Field("card_type", IntEnum(CardTypeCard), true),
    Field("card_function", StrEnum(CardFunction), true),
    Field("e_money_function", IntEnum(EmoneyFunction), false),
    Field("contactless_function", IntEnum(ContactlessFunction), true)
  ]

  datatype Cards = Cards(
    base: BaseQuantityItems,
    quantityItem: string,
    paymentServiceUser: string,
    paymentScheme: string,
    cardType: int,
    cardFunction: string,
    eMoneyFunction: Option<int>,
    contactlessFunction: int)
  {
    predicate EMoneyFunctionMissing() { !TruthyInt(eMoneyFunction) && cardFunction in EMoneyCardFunctions }
    predicate EMoneyFunctionReported() { TruthyInt(eMoneyFunction) && cardFunction in PlainCardFunctions }

    /** `validate_emoney_function_and_card_function`: a `ValueError` raised
        in an after-validator becomes one `value_error` located at the model
        itself, whose input is the whole input object. */
    function Check(input: Value): (r: Option<ErrorDetails>)
    {
      if EMoneyFunctionMissing() then Some(ErrorDetails("value_error", [], input, EMoneyFunctionMissingMessage))
      else if EMoneyFunctionReported() then Some(ErrorDetails("value_error", [], input, EMoneyFunctionReportedMessage))
      else None
    }

    function Errors(input: Value): seq<ErrorDetails>
    {
      if Check(input).Some? then [Check(input).value] else []
    }

    /** An e-money function is reported exactly for the card functions
        that have one. */
    predicate Acceptable()
    {
      (cardFunction in EMoneyCardFunctions ==> TruthyInt(eMoneyFunction))
      && (cardFunction in PlainCardFunctions ==> !TruthyInt(eMoneyFunction))
    }

    /** The validator rejects exactly what is not acceptable, with one
        error at most; the missing case is checked first. */
    lemma CheckAcceptsExactly(input: Value)
      ensures Check(input).None? <==> Acceptable()
      ensures |Errors(input)| <= 1
      ensures EMoneyFunctionMissing() ==> Check(input).value.msg == EMoneyFunctionMissingMessage
    {
    }

    /** On the six card functions the rule is an equivalence: an e-money
        function is reported if and only if the card has one. */
    lemma EMoneyFunctionIffEMoneyCard(input: Value)
      requires cardFunction in CardFunction && (eMoneyFunction.Some? ==> eMoneyFunction.value in EmoneyFunction)
      ensures Check(input).None? <==> (eMoneyFunction.Some? <==> cardFunction in EMoneyCardFunctions)
    {
      CheckAcceptsExactly(input);
    }
  }

  function CardsOf(m: map<string, Typed>): Cards
  {
    Cards(BaseQuantityItemsOf(m), StrAt(m, "quantity_item"), StrAt(m, "payment_service_user"), StrAt(m, "payment_scheme"),
          IntAt(m, "card_type"), StrAt(m, "card_function"), OptIntAt(m, "e_money_function"), IntAt(m, "contactless_function"))
  }

  function ValidateCards(env: Env, v: Value): (r: Outcome<Cards>)
  {
    TwoStage(ParseWith(env, CardsFields, v, CardsOf), (c: Cards) => c.Errors(v))
  }

  /** A card count validates exactly when its fields do and its e-money
      function matches its card function. */
  lemma CardsPipeline(env: Env, v: Value)
    ensures ValidateFields(env, CardsFields, v).Invalid? ==> ValidateCards(env, v) == Invalid(ValidateFields(env, CardsFields, v).errors)
    ensures ValidateCards(env, v).Valid? <==>
      ValidateFields(env, CardsFields, v).Valid? && CardsOf(ValidateFields(env, CardsFields, v).value).Acceptable()
    ensures ValidateCards(env, v).Invalid? && ValidateFields(env, CardsFields, v).Valid? ==> |ValidateCards(env, v).errors| == 1
  {
    if ValidateFields(env, CardsFields, v).Valid? {
      CardsOf(ValidateFields(env, CardsFields, v).value).CheckAcceptsExactly(v);
    }
  }

  /** The two lists split the card functions. */
  lemma CardFunctionsSplit()
    ensures forall f :: f in CardFunction <==> f in EMoneyCardFunctions || f in PlainCardFunctions
    ensures forall f :: f in EMoneyCardFunctions ==> f !in PlainCardFunctions
  {
  }

  // ----- the quantities without a model validator -----

  const PosTerminalsFields: seq<Field> := BaseQuantityItemsMerchantLocationFields + [
    Field("quantity_item", StrEnum(QuantityItemsPosTerminal), true),
    Field("terminal_function", IntEnum(TerminalFunctionPosTerminal), true),
    Field("contactless_function", IntEnum(ContactlessFunction), true)
  ]

  const EMoneyTerminalsFields: seq<Field> := BaseQuantityItemsMerchantLocationFields + [
    Field("quantity_item", StrEnum(QuantityItemsEMoneyTerminal), true),
    Field("terminal_function", IntEnum(TerminalFunctionEMoneyTerminals), true)
  ]

  const ATMsFields: seq<Field> := BaseQuantityItemsMerchantLocationFields + [
    Field("quantity_item", StrEnum(QuantityItemsATMs), true),
    Field("terminal_function", IntEnum(TerminalFunctionATMs), true),
    Field("contactless_function", IntEnum(ContactlessFunction), true)
  ]

  const PaymentAccountsFields: seq<Field> := BaseQuantityItemsFields + [
    Field("quantity_item", StrEnum(QuantityItemsPaymentAccounts), true),
    Field("payment_service_user", StrEnum(PaymentServiceUserPaymentAccounts), true),
    Field("type_of_account", StrEnum(TypeOfAccount), true)
  ]

  /** A terminal count: the function codes differ by kind of terminal. */
  datatype Terminals = Terminals(
    base: BaseQuantityItems,
    merchantLocation: string,
    quantityItem: string,
    terminalFunction: int,
    contactlessFunction: Option<int>)

  function TerminalsOf(m: map<string, Typed>): Terminals
  {
    Terminals(BaseQuantityItemsOf(m), StrAt(m, "merchant_location"), StrAt(m, "quantity_item"), IntAt(m, "terminal_function"),
              OptIntAt(m, "contactless_function"))
  }

  datatype PaymentAccounts = PaymentAccounts(
    base: BaseQuantityItems,
    quantityItem: string,
    paymentServiceUser: string,
    typeOfAccount: string)

  function PaymentAccountsOf(m: map<string, Typed>): PaymentAccounts
  {
    PaymentAccounts(BaseQuantityItemsOf(m), StrAt(m, "quantity_item"), StrAt(m, "payment_service_user"),
                    StrAt(m, "type_of_account"))
  }

  function ValidatePosTerminals(env: Env, v: Value): (r: Outcome<Terminals>)
  {
    ParseWith(env, PosTerminalsFields, v, TerminalsOf)
  }

  function ValidateEMoneyTerminals(env: Env, v: Value): (r: Outcome<Terminals>)
  {
    ParseWith(env, EMoneyTerminalsFields, v, TerminalsOf)
  }

  function ValidateATMs(env: Env, v: Value): (r: Outcome<Terminals>)
  {
    ParseWith(env, ATMsFields, v, TerminalsOf)
  }

  function ValidatePaymentAccounts(env: Env, v: Value): (r: Outcome<PaymentAccounts>)
  {
    ParseWith(env, PaymentAccountsFields, v, PaymentAccountsOf)
  }

  /** Each kind of terminal keeps a terminal function of its own subset. */
  lemma ValidatedATMFunction(env: Env, v: Value)
    requires ValidateFields(env, ATMsFields, v).Valid?
    ensures IntAt(ValidateFields(env, ATMsFields, v).value, "terminal_function") in TerminalFunctionATMs
  {
    ATMsFieldAt();
    ValidIntEnum(env, ATMsFields, v, 4);
  }

  lemma ValidatedPosFunction(env: Env, v: Value)
    requires ValidateFields(env, PosTerminalsFields, v).Valid?
    ensures IntAt(ValidateFields(env, PosTerminalsFields, v).value, "terminal_function") in TerminalFunctionPosTerminal
  {
    PosTerminalsFieldAt();
    ValidIntEnum(env, PosTerminalsFields, v, 4);
  }

  lemma ValidatedEMoneyTerminalFunction(env: Env, v: Value)
    requires ValidateFields(env, EMoneyTerminalsFields, v).Valid?
    ensures IntAt(ValidateFields(env, EMoneyTerminalsFields, v).value, "terminal_function") in TerminalFunctionEMoneyTerminals
  {
    EMoneyTerminalsFieldAt();
    ValidIntEnum(env, EMoneyTerminalsFields, v, 4);
  }

  /** A payment-account count always reports its type of account. */
  lemma ValidatedTypeOfAccount(env: Env, v: Value)
    requires ValidateFields(env, PaymentAccountsFields, v).Valid?
    ensures OptStrAt(ValidateFields(env, PaymentAccountsFields, v).value, "type_of_account").Some?
    ensures StrAt(ValidateFields(env, PaymentAccountsFields, v).value, "type_of_account") in TypeOfAccount
  {
    PaymentAccountsFieldAt();
    ValidStrEnum(env, PaymentAccountsFields, v, 4);
  }

  lemma ATMsFieldAt()
    ensures ATMsFields[4] == Field("terminal_function", IntEnum(TerminalFunctionATMs), true) && FirstNamed(ATMsFields, 4)
  {
  }

  lemma PosTerminalsFieldAt()
    ensures PosTerminalsFields[4] == Field("terminal_function", IntEnum(TerminalFunctionPosTerminal), true) && FirstNamed(PosTerminalsFields, 4)
  {
  }

  lemma EMoneyTerminalsFieldAt()
    ensures EMoneyTerminalsFields[4] == Field("terminal_function", IntEnum(TerminalFunctionEMoneyTerminals), true) && FirstNamed(EMoneyTerminalsFields, 4)
  {
  }

  lemma PaymentAccountsFieldAt()
    ensures PaymentAccountsFields[4] == Field("type_of_account", StrEnum(TypeOfAccount), true) && FirstNamed(PaymentAccountsFields, 4)
  {
  }
}
