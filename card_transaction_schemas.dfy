/** The card payments reported transaction by transaction, by card issuers
    and by card acquirers: the base transaction fields, the fields both
    sides share, and each side's own fields and model rules. */
module CardTransactionSchemas {
  import opened Wrappers
  import opened Text
  import opened Calendar
  import opened Json
  import opened FieldValidationFunctions
  import opened Patterns
  import opened Pydantic
  import opened ModelValidationFunctions
  import opened FullEnums
  import opened TransactionEnums
  import opened TransactionSchemas

  // ----- the messages of the model validators -----

  /** Codes the rules compare against. */
  const NonElectronic: int := 1000
  const OtherContactless: string := "OTH"
  const IssuerCardPayment: string := "CPI"
  const AcquirerCardPayment: string := "CPA"
  const Mastercard: string := "PCS_MCRD"

  /** Python's `in (2221, 2222)` of the issuer: ATM and POS terminal. */
  const IssuerTerminalChannels: seq<int> := [2221, 2222]
  /** The acquirer's `== 2222`: the POS terminal. */
  const AcquirerTerminalChannels: seq<int> := [2222]
  /** Python's `in (2211, 2212, 2230)`: the channels that must be remote. */
  const CardRemoteOnlyChannels: seq<int> := [2211, 2212, 2230]

  const IssuerTerminalRemoteMessage: string := "ATM and POS-terminal initiated payments can not be done remotely."
  const AcquirerTerminalRemoteMessage: string := "POS-terminal initiated payments can not be done remotely."
  const NonElectronicMessage: string := "Non-electronic initiated payments should be reported with attribute contactless as 'OTH'."
  const ContactlessRemoteMessage: string := "Field contactless should not be reported when the payment is initiated remotely."
  const TransactionTypeMissingMessage: string := "Card payments have to be reported with a transaction type."
  const InitiatedMissingMessage: string := "Field transaction_initiated can't be missing when payment scheme is Mastercard."
  const ClearedBeforeInitiatedMessage: string := "Field transaction_cleared must be the same or after transaction_initiated."
  const IssuerCountryMessageStart: string := "Country code is incorrect. Got "
  const IssuerCountryMessageEnd: string := ", expected ISO 3166-1 alpha-2 country code or None."

  /** The locations of the model validators' errors. */
  const RemoteLoc: seq<string> := ["remote_initiation"]
  const ContactlessLoc: seq<string> := ["contactless"]
  const TransactionTypeLoc: seq<string> := ["transaction_type"]
  const InitiatedLoc: seq<string> := ["transaction_initiated"]
  const InitiatedClearedLoc: seq<string> := ["transaction_initiated", "transaction_cleared"]

  // ----- BaseCardPayment -----

  const MerchantCategoryConstraint: Pattern := Pattern(MerchantCategoryPatternSource, (s: string) => MerchantCategoryPattern(s))

  /** The fields both card payments add to the base transaction. */
  const BaseCardPaymentFields: seq<Field> := [
    Field("transaction_initiated", PastDatetime(ViaTimestamp), false),
    Field("transaction_cleared", PastDate(Some(ValidateDate)), true),
    Field("merchant_location", String(None, Some(CountryCheck)), true),
    Field("remote_initiation", StrEnum(RemoteInitiation), true),
    Field("contactless", StrEnum(Contactless), false),
    Field("merchant_category", String(Some(MerchantCategoryConstraint), Some(MerchantCategoryCodeCheck)), true)
  ]

  datatype BaseCardPayment = BaseCardPayment(
    transactionInitiated: Option<Moment>,
    transactionCleared: Day,
    merchantLocation: string,
    remoteInitiation: string,
    contactless: Option<string>,
    merchantCategory: string)

  function BaseCardPaymentOf(m: map<string, Typed>): BaseCardPayment
  {
    BaseCardPayment(OptDateTimeAt(m, "transaction_initiated"), DateAt(m, "transaction_cleared"),
                    StrAt(m, "merchant_location"), StrAt(m, "remote_initiation"), OptStrAt(m, "contactless"),
                    StrAt(m, "merchant_category"))
  }

  /** The rules both sides check the same way, in the order they are
      checked: after the first terminal rule come the remote-only channels,
      the non-electronic channel, contactless on a remote payment, the
      transaction type of a card payment, the Mastercard timestamp and the
      initiated/cleared order; the header payment type and the clearing
      period close the list. */
  datatype CardRules = CardRules(
    base: BaseTransaction,
    card: BaseCardPayment,
    paymentType: string,
    transactionType: Option<string>,
    initiationChannel: int,
    paymentScheme: string,
    terminalChannels: seq<int>,
    terminalRemoteMessage: string,
    cardPayment: string)
  {
    function OrderShown(): Value
    {
      Pair(ShowDateTime(card.transactionInitiated), FormatDate(card.transactionCleared))
    }

    predicate TerminalRemote() { initiationChannel in terminalChannels && card.remoteInitiation == Remote }
    function TerminalRemoteError(): ErrorDetails
    {
      ModelValidationError(RemoteLoc, Str(card.remoteInitiation), terminalRemoteMessage)
    }

    predicate RemoteOnlyNotRemote() { initiationChannel in CardRemoteOnlyChannels && card.remoteInitiation == NonRemote }
    function RemoteOnlyNotRemoteError(): ErrorDetails
    {
      ModelValidationError(ChannelRemoteLoc, Pair(IntToString(initiationChannel), card.remoteInitiation),
                           RemoteOnlyMessageStart + IntToString(initiationChannel) + RemoteOnlyMessageEnd)
    }

    predicate NonElectronicNotOther() { initiationChannel == NonElectronic && card.contactless != Some(OtherContactless) }
    function NonElectronicNotOtherError(): ErrorDetails
    {
      ModelValidationError(ContactlessLoc, StrOrNull(card.contactless), NonElectronicMessage)
    }

    predicate ContactlessRemote() { card.remoteInitiation == Remote && Truthy(card.contactless) }
    function ContactlessRemoteError(): ErrorDetails
    {
      ModelValidationError(ContactlessLoc, StrOrNull(card.contactless), ContactlessRemoteMessage)
    }

    predicate TransactionTypeMissing() { paymentType == cardPayment && transactionType.None? }
    function TransactionTypeMissingError(): ErrorDetails
    {
      ModelValidationError(TransactionTypeLoc, Null, TransactionTypeMissingMessage)
    }

    predicate InitiatedMissing() { paymentScheme == Mastercard && card.transactionInitiated.None? }
    function InitiatedMissingError(): ErrorDetails
    {
      ModelValidationError(InitiatedLoc, Null, InitiatedMissingMessage)
    }

    /** A date and a date-time are always truthy, so only the order counts. */
    predicate ClearedBeforeInitiated()
    {
      card.transactionInitiated.Some? && DateBefore(card.transactionCleared, card.transactionInitiated.value.date)
    }
    function ClearedBeforeInitiatedError(): ErrorDetails
    {
      ModelValidationError(InitiatedClearedLoc, OrderShown(), ClearedBeforeInitiatedMessage)
    }

    function PaymentTypeMismatch(): Option<ErrorDetails>
    {
      if base.reportedPaymentType.Some?
      then ValidatePaymentTypeAndReportedPaymentType(paymentType, base.reportedPaymentType.value) else None
    }

    function ClearedOutsidePeriod(): Option<ErrorDetails>
    {
      if base.dateFrom.Some? && base.dateTo.Some?
      then ValidateTransactionClearedBetweenDates(card.transactionCleared, base.dateFrom.value, base.dateTo.value) else None
    }

    /** The rules of `validate_model`, in the order they are checked. */
    function Rules(): seq<Option<ErrorDetails>>
    {
      [When(TerminalRemote(), TerminalRemoteError()), When(RemoteOnlyNotRemote(), RemoteOnlyNotRemoteError()),
       When(NonElectronicNotOther(), NonElectronicNotOtherError()), When(ContactlessRemote(), ContactlessRemoteError()),
       When(TransactionTypeMissing(), TransactionTypeMissingError()), When(InitiatedMissing(), InitiatedMissingError()),
       When(ClearedBeforeInitiated(), ClearedBeforeInitiatedError()), PaymentTypeMismatch(), ClearedOutsidePeriod()]
    }

    /** What the rules demand, stated positively. */
    predicate Acceptable()
    {
      (initiationChannel in terminalChannels ==> card.remoteInitiation != Remote)
      && (initiationChannel in CardRemoteOnlyChannels ==> card.remoteInitiation != NonRemote)
      && (initiationChannel == NonElectronic ==> card.contactless == Some(OtherContactless))
      && (card.remoteInitiation == Remote ==> !Truthy(card.contactless))
      && (paymentType == cardPayment ==> transactionType.Some?)
      && (paymentScheme == Mastercard ==> card.transactionInitiated.Some?)
      && (card.transactionInitiated.Some? ==> DateAtMost(card.transactionInitiated.value.date, card.transactionCleared))
      && (base.reportedPaymentType.Some? ==> base.reportedPaymentType.value == paymentType)
      && (base.dateFrom.Some? && base.dateTo.Some? ==> Within(card.transactionCleared, base.dateFrom.value, base.dateTo.value))
    }

    /** The record is rejected exactly when it is not acceptable, with one
        error per violated rule. */
    lemma RulesAcceptExactly()
      ensures Collect(Rules()) == [] <==> Acceptable()
      ensures |Collect(Rules())| == |set i | 0 <= i < |Rules()| && Rules()[i].Some?|
    {
      var rules := Rules();
      assert CollectFirst(rules, 1) == CollectFirst(rules, 0) + Appended(rules[0]);
      assert CollectFirst(rules, 2) == CollectFirst(rules, 1) + Appended(rules[1]);
      assert CollectFirst(rules, 3) == CollectFirst(rules, 2) + Appended(rules[2]);
      assert CollectFirst(rules, 4) == CollectFirst(rules, 3) + Appended(rules[3]);
      assert CollectFirst(rules, 5) == CollectFirst(rules, 4) + Appended(rules[4]);
      assert CollectFirst(rules, 6) == CollectFirst(rules, 5) + Appended(rules[5]);
      assert CollectFirst(rules, 7) == CollectFirst(rules, 6) + Appended(rules[6]);
      assert CollectFirst(rules, 8) == CollectFirst(rules, 7) + Appended(rules[7]);
      assert CollectFirst(rules, 9) == CollectFirst(rules, 8) + Appended(rules[8]);
      DateOrder(card.transactionCleared, card.transactionCleared, card.transactionCleared);
      if card.transactionInitiated.Some? {
        DateOrder(card.transactionInitiated.value.date, card.transactionCleared, card.transactionCleared);
      }
      CollectCount(rules);
    }

    /** A non-electronic payment initiated remotely is always rejected:
        either contactless is not `OTH`, or it is reported at all. */
    lemma NonElectronicRemoteRejected()
      requires initiationChannel == NonElectronic && card.remoteInitiation == Remote
      ensures Collect(Rules()) != []
    {
      RulesAcceptExactly();
    }
  }

  // ----- CardPaymentIssuer -----

  /** The issuer's own after-validator of counterparty_country: an empty
      text passes unchanged, anything else must be a listed code once
      upper-cased. */
  function ValidateIssuerCounterpartyCountry(country: set<string>, v: string): (r: Result<string, string>)
    ensures r.Success? <==> v == "" || Upper(v) in country
    ensures r.Success? ==> r.value == Upper(v)
    ensures r.Failure? ==> r.error == IssuerCountryMessageStart + v + IssuerCountryMessageEnd
  {
    if v == "" || Upper(v) in country then Success(Upper(v))
    else Failure(IssuerCountryMessageStart + v + IssuerCountryMessageEnd)
  }

  /** It accepts what `validate_country` accepts, with the same result, and
      differs from it only on the empty text and in its message. */
  lemma IssuerCountryExtendsCountry(country: set<string>, v: string)
    ensures ValidateCountry(country, v).Success? ==> ValidateIssuerCounterpartyCountry(country, v) == ValidateCountry(country, v)
    ensures v != "" ==> (ValidateIssuerCounterpartyCountry(country, v).Success? <==> ValidateCountry(country, v).Success?)
    ensures ValidateIssuerCounterpartyCountry(country, "") == Success("")
  {
  }

  const IssuerCountryCheck: After := After((l: CodeLists, s: string) => ValidateIssuerCounterpartyCountry(l.country, s), false)

  const CardPaymentIssuerFields: seq<Field> := BaseTransactionFields + BaseCardPaymentFields + [
    Field("payment_type", StrEnum(PaymentTypeCardPaymentIssuer), true),
    Field("transaction_type", StrEnum(TransactionType), false),
    Field("counterparty_country", String(None, Some(IssuerCountryCheck)), false),
    Field("account_value", Money(0, None), true),
    Field("account_currency", String(None, Some(CurrencyCheck)), true),
    Field("payment_service_user", StrEnum(PaymentServiceUserCardPaymentIssuer), true),
    Field("initiation_channel", IntEnum(InitiationChannelCardPaymentIssuer), true),
    Field("payment_scheme", StrEnum(PaymentSchemeCardPaymentIssuer), true),
    Field("card_type", IntEnum(CardTypeCardPaymentIssuer), true)
  ]

  datatype CardPaymentIssuer = CardPaymentIssuer(
    base: BaseTransaction,
    card: BaseCardPayment,
    paymentType: string,
    transactionType: Option<string>,
    counterpartyCountry: Option<string>,
    accountValue: int,
    accountCurrency: string,
    paymentServiceUser: string,
    initiationChannel: int,
    paymentScheme: string,
    cardType: int)
  {
    /** The issuer's rules: ATM and POS terminal are never remote, and a
        card payment is `CPI`. */
    function Checks(): CardRules
    {
      CardRules(base, card, paymentType, transactionType, initiationChannel, paymentScheme,
                IssuerTerminalChannels, IssuerTerminalRemoteMessage, IssuerCardPayment)
    }
  }

  function CardPaymentIssuerOf(m: map<string, Typed>): CardPaymentIssuer
  {
    CardPaymentIssuer(BaseTransactionOf(m), BaseCardPaymentOf(m), StrAt(m, "payment_type"), OptStrAt(m, "transaction_type"),
                      OptStrAt(m, "counterparty_country"), CentsAt(m, "account_value"), StrAt(m, "account_currency"),
                      StrAt(m, "payment_service_user"), IntAt(m, "initiation_channel"), StrAt(m, "payment_scheme"),
                      IntAt(m, "card_type"))
  }

  function ValidateCardPaymentIssuer(env: Env, v: Value): (r: Outcome<CardPaymentIssuer>)
  {
    TwoStage(ParseWith(env, CardPaymentIssuerFields, v, CardPaymentIssuerOf), (c: CardPaymentIssuer) => Collect(c.Checks().Rules()))
  }

  /** An issuer record validates exactly when its fields do and its rules
      accept it; field errors leave the rules unchecked. */
  lemma CardPaymentIssuerPipeline(env: Env, v: Value)
    ensures ValidateFields(env, CardPaymentIssuerFields, v).Invalid? ==>
      ValidateCardPaymentIssuer(env, v) == Invalid(ValidateFields(env, CardPaymentIssuerFields, v).errors)
    ensures ValidateCardPaymentIssuer(env, v).Valid? <==>
      ValidateFields(env, CardPaymentIssuerFields, v).Valid?
      && CardPaymentIssuerOf(ValidateFields(env, CardPaymentIssuerFields, v).value).Checks().Acceptable()
  {
    if ValidateFields(env, CardPaymentIssuerFields, v).Valid? {
      CardPaymentIssuerOf(ValidateFields(env, CardPaymentIssuerFields, v).value).Checks().RulesAcceptExactly();
    }
  }

  /** counterparty_country is the issuer's sixteenth field and the only
      one of that name before it. */
  lemma IssuerCountryFirst()
    ensures CardPaymentIssuerFields[15] == Field("counterparty_country", String(None, Some(IssuerCountryCheck)), false)
    ensures FirstNamed(CardPaymentIssuerFields, 15)
  {
  }

  /** The counterparty country of a validated issuer record is not
      reported, empty, or an upper-case listed code. */
  lemma ValidatedIssuerCounterpartyCountry(env: Env, v: Value)
    requires ValidateFields(env, CardPaymentIssuerFields, v).Valid?
    ensures var c := OptStrAt(ValidateFields(env, CardPaymentIssuerFields, v).value, "counterparty_country");
      c.None? || c == Some("") || (c.value in env.lists.country && NoLower(c.value))
  {
    IssuerCountryFirst();
    ValidChecked(env, CardPaymentIssuerFields, v, 15);
    var raw := Lookup(v.members, "counterparty_country");
    if raw.Some? && raw.value.Str? {
      UpperNormalizes(raw.value.s);
    }
  }

  // ----- CardPaymentAcquirer -----

  const CardPaymentAcquirerFields: seq<Field> := BaseTransactionFields + BaseCardPaymentFields + [
    Field("payment_type", StrEnum(PaymentTypeCardPaymentAcquirer), true),
    Field("counterparty_country", String(None, Some(CountryCheck)), true),
    Field("transaction_type", StrEnum(TransactionType), false),
    Field("initiation_channel", IntEnum(InitiationChannelCardPaymentAquierer), true),
    Field("payment_scheme", StrEnum(PaymentSchemeCardPaymentAcquirer), true),
    Field("card_type", IntEnum(CardTypeCardPaymentAcquirer), true)
  ]

  datatype CardPaymentAcquirer = CardPaymentAcquirer(
    base: BaseTransaction,
    card: BaseCardPayment,
    paymentType: string,
    counterpartyCountry: string,
    transactionType: Option<string>,
    initiationChannel: int,
    paymentScheme: string,
    cardType: int)
  {
    /** The acquirer's rules: the POS terminal is never remote, and a card
        payment is `CPA`. */
    function Checks(): CardRules
    {
      CardRules(base, card, paymentType, transactionType, initiationChannel, paymentScheme,
                AcquirerTerminalChannels, AcquirerTerminalRemoteMessage, AcquirerCardPayment)
    }
  }

  function CardPaymentAcquirerOf(m: map<string, Typed>): CardPaymentAcquirer
  {
    CardPaymentAcquirer(BaseTransactionOf(m), BaseCardPaymentOf(m), StrAt(m, "payment_type"), StrAt(m, "counterparty_country"),
                        OptStrAt(m, "transaction_type"), IntAt(m, "initiation_channel"), StrAt(m, "payment_scheme"),
                        IntAt(m, "card_type"))
  }

  function ValidateCardPaymentAcquirer(env: Env, v: Value): (r: Outcome<CardPaymentAcquirer>)
  {
    TwoStage(ParseWith(env, CardPaymentAcquirerFields, v, CardPaymentAcquirerOf), (c: CardPaymentAcquirer) => Collect(c.Checks().Rules()))
  }

  /** An acquirer record validates exactly when its fields do and its
      rules accept it; field errors leave the rules unchecked. */
  lemma CardPaymentAcquirerPipeline(env: Env, v: Value)
    ensures ValidateFields(env, CardPaymentAcquirerFields, v).Invalid? ==>
      ValidateCardPaymentAcquirer(env, v) == Invalid(ValidateFields(env, CardPaymentAcquirerFields, v).errors)
    ensures ValidateCardPaymentAcquirer(env, v).Valid? <==>
      ValidateFields(env, CardPaymentAcquirerFields, v).Valid?
      && CardPaymentAcquirerOf(ValidateFields(env, CardPaymentAcquirerFields, v).value).Checks().Acceptable()
  {
    if ValidateFields(env, CardPaymentAcquirerFields, v).Valid? {
      CardPaymentAcquirerOf(ValidateFields(env, CardPaymentAcquirerFields, v).value).Checks().RulesAcceptExactly();
    }
  }

  // ----- both sides -----

  /** The terminal channels of each side are among its initiation channels,
      and the acquirer's is also one of the issuer's. */
  lemma TerminalChannelsAreChannels()
    ensures forall c :: c in IssuerTerminalChannels ==> c in InitiationChannelCardPaymentIssuer
    ensures forall c :: c in AcquirerTerminalChannels ==> c in InitiationChannelCardPaymentAquierer && c in IssuerTerminalChannels
    ensures forall c :: c in CardRemoteOnlyChannels ==> c in InitiationChannelCardPaymentIssuer && c in InitiationChannelCardPaymentAquierer
  {
  }

  /** Wherever the issuer's terminal rule passes, the acquirer's would
      pass on the same record. */
  lemma IssuerTerminalRuleIsStricter(r: CardRules)
    requires r.terminalChannels == IssuerTerminalChannels
    ensures !r.TerminalRemote() ==> !r.(terminalChannels := AcquirerTerminalChannels).TerminalRemote()
  {
  }

  /** An explicit null counterparty_country aborts the issuer's validation
      as written: the after-validator calls `.upper()` on it. The corrected
      check reads it as not reported. */
  lemma NullIssuerCountryAsWritten(env: Env)
    ensures var members := [Member("counterparty_country", Null)];
      var f := CardPaymentIssuerFields[15];
      CheckFieldAsWritten(env, f, members).OtherError? && CheckField(env, f, members) == Success(Absent)
  {
    var members := [Member("counterparty_country", Null)];
    IssuerCountryFirst();
    assert Lookup(members, "counterparty_country") == Some(Null);
  }
}
