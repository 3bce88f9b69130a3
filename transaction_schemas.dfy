/** The transaction-by-transaction items: ATM cash transactions, credit
    transfers and instant credit transfers, with the base fields they share
    with the card payments. Each variant is a closed model whose field
    checks run first; its model validator then appends one error per
    violated rule and rejects the record when any was appended. */
module TransactionSchemas {
  import opened Wrappers
  import opened Text
  import opened Calendar
  import opened Json
  import opened FieldValidationFunctions
  import opened Pydantic
  import opened ModelValidationFunctions
  import opened FullEnums
  import opened TransactionEnums

  // ----- the messages of the model validators -----

  /** Codes the rules compare against. */
  const Sweden: string := "SE"
  const CashWithdrawal: string := "CW0"
  const CashDeposit: string := "CD0"
  const Remote: string := "R"
  const NonRemote: string := "NR"
  const SepaScheme: string := "CTS_SEPA"
  const SepaInstantScheme: string := "CTS_SEPAI"
  const Euro: string := "EUR"
  const NonMfiUser: string := "NMFIXP"

  const SeLocalityMissingMessage: string := "When merchant_location is SE locality have to be reported."
  const LocalityOutsideSeMessage: string := "Locality should not be reported when merchant location is not SE."
  const CashWithdrawalRoleMessage: string := "Cash withdrawals should be reported from the payers PSP."
  const CashDepositRoleMessage: string := "Cash deposits should be reported from the payee's PSP."
  const TerminalRemoteMessage: string := "Terminal initiated payments can not be done remotely."
  const SepaCurrencyMessage: string := "Payments via SEPA have to be in transaction currency EUR."
  const SctInstCurrencyMessage: string := "Payments via SCT Inst have to be in transaction currency EUR."
  const ChannelMissingMessage: string := "Field required. Initiation_channel can not be missing."
  const ChannelForPayeeMessage: string := "Initiation_channel should not be reported when role_in_transaction is 2, payee's PSP."
  const TransferRemoteMissingMessage: string := "Field required. Remote_initiation can not be missing when role in transaction is '1'."
  const TransferRemoteForPayeeMessage: string := "Remote_initiation should not be reported when role_in_transaction is '2', payee's PSP."
  const InstantRemoteMissingMessage: string := "Field required. Remote_initiation can not be missing."
  const InstantRemoteForPayeeMessage: string := "Remote_initiation should not be reported when role_in_transaction is 2, payee's PSP."
  const TransferSniMissingMessage: string := "Field required. When role_in_transaction is 2, payees PSP, and payment_service_user is a non-MFI excl. private persons, sni code can not be missing."
  const InstantSniMissingMessage: string := "Field required. When role_in_transaction is payees PSP and payment_service_user is a non-MFI excl. private persons, sni code can not be missing."
  const SniForOthersMessage: string := "Sni code should only be reported from the payee's PSPs and when the payment_service_user is a non-MFI excl. private persons."
  const SniForPayerMessage: string := "Sni code should not be reported from the payer's PSP."
  const AccountCurrencyMissingMessage: string := "Field required. Account_currency can not be missing."
  const AccountCurrencyForPayeeMessage: string := "Account_currency should not be reported when role_in_transaction is 2, payee's PSP."
  const AccountValueMissingMessage: string := "Field required. Account_value can not be missing."
  const AccountValueForPayeeMessage: string := "Account_value should not be reported when role_in_transaction is 2, payee's PSP."
  const TransactionTimeFormatMessage: string := "Transaction initiated has to be in format '%Y-%m-%d %H:%M:%S' got "
  const RemoteOnlyMessageStart: string := "Transaction with initiation channel "
  const RemoteOnlyMessageEnd: string := " have to be initiated remotely."

  /** The locations of the model validators' errors. */
  const AccountCurrencyRoleLoc: seq<string> := ["account_currency", "role_in_transaction"]
  const AccountValueRoleLoc: seq<string> := ["account_value", "role_in_transaction"]
  const ChannelRemoteLoc: seq<string> := ["initiation_channel", "remote_initiation"]
  const ChannelRoleLoc: seq<string> := ["initiation_channel", "role_in_transaction"]
  const LocationLocalityLoc: seq<string> := ["merchant_location", "locality"]
  const SchemeCurrencyLoc: seq<string> := ["payment_scheme", "transaction_currency"]
  const TypeRoleLoc: seq<string> := ["payment_type", "role_in_transaction"]
  const RemoteRoleLoc: seq<string> := ["remote_initiation", "role_in_transaction"]
  const SniRoleUserLoc: seq<string> := ["sni_code", "role_in_transaction", "payment_service_user"]
  const SniRoleLoc: seq<string> := ["sni_code", "role_in_transaction"]

  // ----- BaseTransaction -----

  const BaseTransactionFields: seq<Field> := [
    Field("id", String(None, None), true),
    Field("transaction_value", Money(0, None), true),
    Field("transaction_currency", String(None, Some(CurrencyCheck)), true),
    Field("role_in_transaction", IntEnum(RoleInTransaction), true),
    Field("reported_payment_type", StrEnum(PaymentTypeTransactions), false),
    Field("date_from", PastDate(None), false),
    Field("date_to", PastDate(None), false)
  ]

  /** The base fields of a validated record; money in hundredths. */
  datatype BaseTransaction = BaseTransaction(
    id: string,
    transactionValue: int,
    transactionCurrency: string,
    roleInTransaction: int,
    reportedPaymentType: Option<string>,
    dateFrom: Option<Day>,
    dateTo: Option<Day>)

  function BaseTransactionOf(m: map<string, Typed>): BaseTransaction
  {
    BaseTransaction(StrAt(m, "id"), CentsAt(m, "transaction_value"), StrAt(m, "transaction_currency"),
                    IntAt(m, "role_in_transaction"), OptStrAt(m, "reported_payment_type"),
                    OptDateAt(m, "date_from"), OptDateAt(m, "date_to"))
  }

  /** The base fields of every variant that starts with them: a value of at
      least 0 in whole hundredths, an upper-case listed currency, a role of
      1 or 2, and a header payment type from the transaction types. */
  lemma ValidatedBaseTransaction(env: Env, fields: seq<Field>, v: Value)
    requires |fields| >= 7 && fields[..7] == BaseTransactionFields
    requires ValidateFields(env, fields, v).Valid?
    ensures var b := BaseTransactionOf(ValidateFields(env, fields, v).value);
      b.transactionValue >= 0 && b.transactionCurrency in env.lists.currency && NoLower(b.transactionCurrency)
      && b.roleInTransaction in RoleInTransaction
      && (b.reportedPaymentType.Some? ==> b.reportedPaymentType.value in PaymentTypeTransactions)
  {
    ValidatedValue(env, fields, v);
    ValidatedCurrency(env, fields, v);
    ValidatedRole(env, fields, v);
    ValidatedReportedType(env, fields, v);
  }

  /** A record that starts with the base fields holds each of them first
      under its own name. */
  lemma BaseFieldAt(fields: seq<Field>, i: int)
    requires |fields| >= 7 && fields[..7] == BaseTransactionFields && 0 <= i < 7
    ensures fields[i] == BaseTransactionFields[i] && FirstNamed(fields, i)
  {
    assert forall j :: 0 <= j < 7 ==> fields[j] == BaseTransactionFields[j];
  }

  lemma ValidatedValue(env: Env, fields: seq<Field>, v: Value)
    requires |fields| >= 7 && fields[..7] == BaseTransactionFields
    requires ValidateFields(env, fields, v).Valid?
    ensures CentsAt(ValidateFields(env, fields, v).value, "transaction_value") >= 0
  {
    BaseFieldAt(fields, 1);
    ValidMoney(env, fields, v, 1);
  }

  lemma ValidatedCurrency(env: Env, fields: seq<Field>, v: Value)
    requires |fields| >= 7 && fields[..7] == BaseTransactionFields
    requires ValidateFields(env, fields, v).Valid?
    ensures var c := StrAt(ValidateFields(env, fields, v).value, "transaction_currency");
      c in env.lists.currency && NoLower(c)
  {
    BaseFieldAt(fields, 2);
    ValidChecked(env, fields, v, 2);
    UpperNormalizes(Lookup(v.members, "transaction_currency").value.s);
  }

  lemma ValidatedRole(env: Env, fields: seq<Field>, v: Value)
    requires |fields| >= 7 && fields[..7] == BaseTransactionFields
    requires ValidateFields(env, fields, v).Valid?
    ensures IntAt(ValidateFields(env, fields, v).value, "role_in_transaction") in RoleInTransaction
  {
    BaseFieldAt(fields, 3);
    ValidIntEnum(env, fields, v, 3);
  }

  lemma ValidatedReportedType(env: Env, fields: seq<Field>, v: Value)
    requires |fields| >= 7 && fields[..7] == BaseTransactionFields
    requires ValidateFields(env, fields, v).Valid?
    ensures var t := OptStrAt(ValidateFields(env, fields, v).value, "reported_payment_type");
      t.Some? ==> t.value in PaymentTypeTransactions
  {
    BaseFieldAt(fields, 4);
    ValidStrEnum(env, fields, v, 4);
  }

  /** Python's `in (2100, 2210, 2211, 2213, 2231, 2232, 5000)`: the channels
      that can only be used remotely. */
  const RemoteOnlyChannels: seq<int> := [2100, 2210, 2211, 2213, 2231, 2232, 5000]

  /** `f"{a}, {b}"` */
  function Pair(a: string, b: string): Value
  {
    Str(a + ", " + b)
  }

  // ----- CashTransactionsATMOwners -----

  const CashTransactionsATMOwnersFields: seq<Field> := BaseTransactionFields + [
    Field("payment_type", StrEnum(PaymentTypeCashTransactionATMOwners), true),
    Field("counterparty_country", String(None, Some(CountryCheck)), true),
    Field("transaction_day", PastDate(Some(ValidateDate)), true),
    Field("merchant_location", String(None, Some(CountryCheck)), true),
    Field("locality", String(None, Some(LocalityCheck)), false),
    Field("payment_scheme", StrEnum(PaymentSchemeCashTransactionsATMOwners), true)
  ]

  datatype CashTransactionsATMOwners = CashTransactionsATMOwners(
    base: BaseTransaction,
    paymentType: string,
    counterpartyCountry: string,
    transactionDay: Day,
    merchantLocation: string,
    locality: Option<string>,
    paymentScheme: string)
  {
    function LocalityShown(): Value { Pair(merchantLocation, ShowStr(locality)) }
    function RoleShown(): Value { Pair(paymentType, IntToString(base.roleInTransaction)) }

    predicate SeWithoutLocality() { merchantLocation == Sweden && !Truthy(locality) }
    function SeWithoutLocalityError(): ErrorDetails
    {
      ModelValidationError(LocationLocalityLoc, LocalityShown(), SeLocalityMissingMessage)
    }

    predicate LocalityOutsideSe() { merchantLocation != Sweden && Truthy(locality) }
    function LocalityOutsideSeError(): ErrorDetails
    {
      ModelValidationError(LocationLocalityLoc, LocalityShown(), LocalityOutsideSeMessage)
    }

    predicate WithdrawalNotFromPayer() { paymentType == CashWithdrawal && base.roleInTransaction != 1 }
    function WithdrawalNotFromPayerError(): ErrorDetails
    {
      ModelValidationError(TypeRoleLoc, RoleShown(), CashWithdrawalRoleMessage)
    }

    predicate DepositNotFromPayee() { paymentType == CashDeposit && base.roleInTransaction != 2 }
    function DepositNotFromPayeeError(): ErrorDetails
    {
      ModelValidationError(TypeRoleLoc, RoleShown(), CashDepositRoleMessage)
    }

    function PaymentTypeMismatch(): Option<ErrorDetails>
    {
      if base.reportedPaymentType.Some?
      then ValidatePaymentTypeAndReportedPaymentType(paymentType, base.reportedPaymentType.value) else None
    }

    function DayOutsidePeriod(): Option<ErrorDetails>
    {
      if base.dateFrom.Some? && base.dateTo.Some?
      then ValidateTransactionDayBetweenDates(transactionDay, base.dateFrom.value, base.dateTo.value) else None
    }

    /** The rules of `validate_model`, in the order they are checked. */
    function Rules(): seq<Option<ErrorDetails>>
    {
      [When(SeWithoutLocality(), SeWithoutLocalityError()), When(LocalityOutsideSe(), LocalityOutsideSeError()),
       When(WithdrawalNotFromPayer(), WithdrawalNotFromPayerError()),
       When(DepositNotFromPayee(), DepositNotFromPayeeError()), PaymentTypeMismatch(), DayOutsidePeriod()]
    }

    /** What the rules demand, stated positively. */
    predicate Acceptable()
    {
      (merchantLocation == Sweden <==> Truthy(locality))
      && (paymentType == CashWithdrawal ==> base.roleInTransaction == 1)
      && (paymentType == CashDeposit ==> base.roleInTransaction == 2)
      && (base.reportedPaymentType.Some? ==> base.reportedPaymentType.value == paymentType)
      && (base.dateFrom.Some? && base.dateTo.Some? ==> Within(transactionDay, base.dateFrom.value, base.dateTo.value))
    }

    /** The record is rejected exactly when it is not acceptable, with one
        error per violated rule. */
    lemma RulesAcceptExactly()
      ensures Collect(Rules()) == [] <==> Acceptable()
      ensures |Collect(Rules())| == |set i | 0 <= i < |Rules()| && Rules()[i].Some?|
    {
      var rules := Rules();
      assert CollectFirst(rules, 1) == CollectFirst(rules, 0) + Appended(rules[0]);
      assert CollectFirst(rules, 2) == CollectFirst(rules, 1) + Appended(rules[1]);
      assert CollectFirst(rules, 3) == CollectFirst(rules, 2) + Appended(rules[2]);
      assert CollectFirst(rules, 4) == CollectFirst(rules, 3) + Appended(rules[3]);
      assert CollectFirst(rules, 5) == CollectFirst(rules, 4) + Appended(rules[4]);
      assert CollectFirst(rules, 6) == CollectFirst(rules, 5) + Appended(rules[5]);
      CollectCount(rules);
    }

  }

  function CashTransactionsATMOwnersOf(m: map<string, Typed>): CashTransactionsATMOwners
  {
    CashTransactionsATMOwners(BaseTransactionOf(m), StrAt(m, "payment_type"), StrAt(m, "counterparty_country"),
                              DateAt(m, "transaction_day"), StrAt(m, "merchant_location"), OptStrAt(m, "locality"),
                              StrAt(m, "payment_scheme"))
  }

  function ValidateCashTransactionsATMOwners(env: Env, v: Value): (r: Outcome<CashTransactionsATMOwners>)
  {
    TwoStage(ParseWith(env, CashTransactionsATMOwnersFields, v, CashTransactionsATMOwnersOf),
             (c: CashTransactionsATMOwners) => Collect(c.Rules()))
  }

  /** An ATM record validates exactly when its fields do and its rules
      accept it; field errors leave the rules unchecked. */
  lemma CashTransactionsATMOwnersPipeline(env: Env, v: Value)
    ensures ValidateFields(env, CashTransactionsATMOwnersFields, v).Invalid? ==>
      ValidateCashTransactionsATMOwners(env, v) == Invalid(ValidateFields(env, CashTransactionsATMOwnersFields, v).errors)
    ensures ValidateCashTransactionsATMOwners(env, v).Valid? <==>
      ValidateFields(env, CashTransactionsATMOwnersFields, v).Valid?
      && CashTransactionsATMOwnersOf(ValidateFields(env, CashTransactionsATMOwnersFields, v).value).Acceptable()
  {
    if ValidateFields(env, CashTransactionsATMOwnersFields, v).Valid? {
      CashTransactionsATMOwnersOf(ValidateFields(env, CashTransactionsATMOwnersFields, v).value).RulesAcceptExactly();
    }
  }

  // ----- CreditTransfer -----

  const CreditTransferFields: seq<Field> := BaseTransactionFields + [
    Field("payment_type", StrEnum(PaymentTypeCreditTransfer), true),
    Field("counterparty_country", String(None, Some(CountryCheck)), true),
    Field("transaction_day", PastDate(Some(ValidateDate)), true),
    Field("payment_service_user", StrEnum(PaymentServiceUser), true),
    Field("sni_code", String(None, Some(SniCodeCheck)), false),
    Field("initiation_channel", IntEnum(InitiationChannelCreditTransfer), false),
    Field("remote_initiation", StrEnum(RemoteInitiation), false),
    Field("payment_scheme", StrEnum(PaymentSchemeCreditTransfer), true)
  ]

  datatype CreditTransfer = CreditTransfer(
    base: BaseTransaction,
    paymentType: string,
    counterpartyCountry: string,
    transactionDay: Day,
    paymentServiceUser: string,
    sniCode: Option<string>,
    initiationChannel: Option<int>,
    remoteInitiation: Option<string>,
    paymentScheme: string)
  {
    function Role(): string { IntToString(base.roleInTransaction) }
    function ChannelShown(): Value { Pair(ShowInt(initiationChannel), ShowStr(remoteInitiation)) }
    function ChannelRoleShown(): Value { Pair(ShowInt(initiationChannel), Role()) }
    function RemoteRoleShown(): Value { Pair(ShowStr(remoteInitiation), Role()) }

    /** The SNI rules show remote_initiation where sni_code is meant; see
        `SniInputAsWritten`. */
    function SniShown(): Value { Pair(ShowStr(remoteInitiation), Role() + ", " + paymentServiceUser) }

    predicate TerminalRemote() { initiationChannel == Some(2220) && remoteInitiation == Some(Remote) }
    function TerminalRemoteError(): ErrorDetails
    {
      ModelValidationError(ChannelRemoteLoc, ChannelShown(), TerminalRemoteMessage)
    }

    predicate RemoteOnlyNotRemote() { initiationChannel.Some? && initiationChannel.value in RemoteOnlyChannels && remoteInitiation == Some(NonRemote) }
    function RemoteOnlyNotRemoteError(): ErrorDetails
    {
      ModelValidationError(ChannelRemoteLoc, ChannelShown(), RemoteOnlyMessageStart + ShowInt(initiationChannel) + RemoteOnlyMessageEnd)
    }

    predicate SepaNotEuro() { paymentScheme == SepaScheme && base.transactionCurrency != Euro }
    function SepaNotEuroError(): ErrorDetails
    {
      ModelValidationError(SchemeCurrencyLoc, Pair(paymentScheme, base.transactionCurrency), SepaCurrencyMessage)
    }

    predicate ChannelMissing() { initiationChannel.None? && base.roleInTransaction == 1 }
    function ChannelMissingError(): ErrorDetails
    {
      ModelValidationError(ChannelRoleLoc, ChannelRoleShown(), ChannelMissingMessage)
    }

    predicate ChannelForPayee() { TruthyInt(initiationChannel) && base.roleInTransaction == 2 }
    function ChannelForPayeeError(): ErrorDetails
    {
      ModelValidationError(ChannelRoleLoc, ChannelRoleShown(), ChannelForPayeeMessage)
    }

    predicate RemoteMissing() { remoteInitiation.None? && base.roleInTransaction == 1 }
    function RemoteMissingError(): ErrorDetails
    {
      ModelValidationError(RemoteRoleLoc, RemoteRoleShown(), TransferRemoteMissingMessage)
    }

    predicate RemoteForPayee() { Truthy(remoteInitiation) && base.roleInTransaction == 2 }
    function RemoteForPayeeError(): ErrorDetails
    {
      ModelValidationError(RemoteRoleLoc, RemoteRoleShown(), TransferRemoteForPayeeMessage)
    }

    predicate SniMissing() { sniCode.None? && base.roleInTransaction == 2 && paymentServiceUser == NonMfiUser }
    function SniMissingError(): ErrorDetails
    {
      ModelValidationError(SniRoleUserLoc, SniShown(), TransferSniMissingMessage)
    }

    predicate SniForOthers() { Truthy(sniCode) && base.roleInTransaction == 2 && paymentServiceUser != NonMfiUser }
    function SniForOthersError(): ErrorDetails
    {
      ModelValidationError(SniRoleUserLoc, SniShown(), SniForOthersMessage)
    }

    predicate SniForPayer() { Truthy(sniCode) && base.roleInTransaction == 1 }
    function SniForPayerError(): ErrorDetails
    {
      ModelValidationError(SniRoleLoc, RemoteRoleShown(), SniForPayerMessage)
    }

    function DayOutsidePeriod(): Option<ErrorDetails>
    {
      if base.dateFrom.Some? && base.dateTo.Some?
      then ValidateTransactionDayBetweenDates(transactionDay, base.dateFrom.value, base.dateTo.value) else None
    }

    /** The rules of `validate_model`, in the order they are checked; the payment type is not compared with the
        header, as the enum allows CT0 only. */
    function Rules(): seq<Option<ErrorDetails>>
    {
      [When(TerminalRemote(), TerminalRemoteError()), When(RemoteOnlyNotRemote(), RemoteOnlyNotRemoteError()),
       When(SepaNotEuro(), SepaNotEuroError()), When(ChannelMissing(), ChannelMissingError()),
       When(ChannelForPayee(), ChannelForPayeeError()), When(RemoteMissing(), RemoteMissingError()),
       When(RemoteForPayee(), RemoteForPayeeError()), When(SniMissing(), SniMissingError()),
       When(SniForOthers(), SniForOthersError()), When(SniForPayer(), SniForPayerError()), DayOutsidePeriod()]
    }

    predicate Acceptable()
    {
      !(initiationChannel == Some(2220) && remoteInitiation == Some(Remote))
      && !(initiationChannel.Some? && initiationChannel.value in RemoteOnlyChannels && remoteInitiation == Some(NonRemote))
      && (paymentScheme == SepaScheme ==> base.transactionCurrency == Euro)
      && (base.roleInTransaction == 1 ==> initiationChannel.Some? && remoteInitiation.Some? && !Truthy(sniCode))
      && (base.roleInTransaction == 2 ==> !TruthyInt(initiationChannel) && !Truthy(remoteInitiation))
      && (base.roleInTransaction == 2 && paymentServiceUser == NonMfiUser ==> sniCode.Some?)
      && (base.roleInTransaction == 2 && paymentServiceUser != NonMfiUser ==> !Truthy(sniCode))
      && (base.dateFrom.Some? && base.dateTo.Some? ==> Within(transactionDay, base.dateFrom.value, base.dateTo.value))
    }

    /** The record is rejected exactly when it is not acceptable, with one
        error per violated rule. */
    lemma RulesAcceptExactly()
      ensures Collect(Rules()) == [] <==> Acceptable()
      ensures |Collect(Rules())| == |set i | 0 <= i < |Rules()| && Rules()[i].Some?|
    {
      var rules := Rules();
      assert CollectFirst(rules, 1) == CollectFirst(rules, 0) + Appended(rules[0]);
      assert CollectFirst(rules, 2) == CollectFirst(rules, 1) + Appended(rules[1]);
      assert CollectFirst(rules, 3) == CollectFirst(rules, 2) + Appended(rules[2]);
      assert CollectFirst(rules, 4) == CollectFirst(rules, 3) + Appended(rules[3]);
      assert CollectFirst(rules, 5) == CollectFirst(rules, 4) + Appended(rules[4]);
      assert CollectFirst(rules, 6) == CollectFirst(rules, 5) + Appended(rules[5]);
      assert CollectFirst(rules, 7) == CollectFirst(rules, 6) + Appended(rules[6]);
      assert CollectFirst(rules, 8) == CollectFirst(rules, 7) + Appended(rules[7]);
      assert CollectFirst(rules, 9) == CollectFirst(rules, 8) + Appended(rules[8]);
      assert CollectFirst(rules, 10) == CollectFirst(rules, 9) + Appended(rules[9]);
      assert CollectFirst(rules, 11) == CollectFirst(rules, 10) + Appended(rules[10]);
      CollectCount(rules);
    }

    /** For the two roles, sni_code is required exactly for a payee's PSP
        reporting a non-MFI user, and otherwise must not be reported. */
    lemma SniCodeByRole()
      requires Acceptable() && base.roleInTransaction in RoleInTransaction
      ensures base.roleInTransaction == 2 && paymentServiceUser == NonMfiUser ==> sniCode.Some?
      ensures !(base.roleInTransaction == 2 && paymentServiceUser == NonMfiUser) ==> !Truthy(sniCode)
    {
    }
  }

  function CreditTransferOf(m: map<string, Typed>): CreditTransfer
  {
    CreditTransfer(BaseTransactionOf(m), StrAt(m, "payment_type"), StrAt(m, "counterparty_country"),
                   DateAt(m, "transaction_day"), StrAt(m, "payment_service_user"), OptStrAt(m, "sni_code"),
                   OptIntAt(m, "initiation_channel"), OptStrAt(m, "remote_initiation"), StrAt(m, "payment_scheme"))
  }

  function ValidateCreditTransfer(env: Env, v: Value): (r: Outcome<CreditTransfer>)
  {
    TwoStage(ParseWith(env, CreditTransferFields, v, CreditTransferOf), (c: CreditTransfer) => Collect(c.Rules()))
  }

  /** A credit transfer validates exactly when its fields do and its rules
      accept it; field errors leave the rules unchecked. */
  lemma CreditTransferPipeline(env: Env, v: Value)
    ensures ValidateFields(env, CreditTransferFields, v).Invalid? ==>
      ValidateCreditTransfer(env, v) == Invalid(ValidateFields(env, CreditTransferFields, v).errors)
    ensures ValidateCreditTransfer(env, v).Valid? <==>
      ValidateFields(env, CreditTransferFields, v).Valid? && CreditTransferOf(ValidateFields(env, CreditTransferFields, v).value).Acceptable()
  {
    if ValidateFields(env, CreditTransferFields, v).Valid? {
      CreditTransferOf(ValidateFields(env, CreditTransferFields, v).value).RulesAcceptExactly();
    }
  }

  // ----- InstantCreditTransfer -----

  /** The before-validator of transaction_time: `strptime` itself produces
      the `datetime`, so no ISO form is required. */
  function ParseTransactionTime(v: Value): (r: Result<Moment, string>)
    ensures r.Success? <==> v.Str? && StrptimeTimestamp(v.s).Some?
    ensures r.Success? ==> r.value == StrptimeTimestamp(v.s).value
    ensures r.Failure? ==> r.error == TransactionTimeFormatMessage + TypeName(v) + ": " + Render(v)
  {
    if v.Str? && StrptimeTimestamp(v.s).Some? then
      var t: Moment := StrptimeTimestamp(v.s).value;
      Success(t)
    else Failure(TransactionTimeFormatMessage + TypeName(v) + ": " + Render(v))
  }

  const InstantCreditTransferFields: seq<Field> := BaseTransactionFields + [
    Field("payment_type", StrEnum(PaymentTypeInstantCreditTransfer), true),
    Field("counterparty_country", String(None, Some(CountryCheck)), true),
    Field("transaction_time", PastDatetime(ViaParser(ParseTransactionTime)), true),
    Field("account_value", Float, false),
    Field("account_currency", String(None, Some(CurrencyCheck)), false),
    Field("payment_service_user", StrEnum(PaymentServiceUser), true),
    Field("sni_code", String(None, Some(SniCodeCheck)), false),
    Field("initiation_channel", IntEnum(InitiationChannelInstantCreditTransfer), false),
    Field("remote_initiation", StrEnum(RemoteInitiation), false),
    Field("payment_scheme", StrEnum(PaymentSchemeInstantCreditTransfer), true)
  ]

  datatype InstantCreditTransfer = InstantCreditTransfer(
    base: BaseTransaction,
    paymentType: string,
    counterpartyCountry: string,
    transactionTime: Moment,
    accountValue: Option<Decimal>,
    accountCurrency: Option<string>,
    paymentServiceUser: string,
    sniCode: Option<string>,
    initiationChannel: Option<int>,
    remoteInitiation: Option<string>,
    paymentScheme: string)
  {
    function Role(): string { IntToString(base.roleInTransaction) }
    function ChannelShown(): Value { Pair(ShowInt(initiationChannel), ShowStr(remoteInitiation)) }
    function ChannelRoleShown(): Value { Pair(ShowInt(initiationChannel), Role()) }
    function RemoteRoleShown(): Value { Pair(ShowStr(remoteInitiation), Role()) }
    function CurrencyRoleShown(): Value { Pair(ShowStr(accountCurrency), Role()) }
    function ValueRoleShown(): Value { Pair(ShowFloat(accountValue), Role()) }
    function SniShown(): Value { Pair(ShowStr(remoteInitiation), Role() + "," + paymentServiceUser) }

    predicate TerminalRemote() { initiationChannel == Some(2220) && remoteInitiation == Some(Remote) }
    function TerminalRemoteError(): ErrorDetails
    {
      ModelValidationError(ChannelRemoteLoc, ChannelShown(), TerminalRemoteMessage)
    }

    predicate RemoteOnlyNotRemote() { initiationChannel.Some? && initiationChannel.value in RemoteOnlyChannels && remoteInitiation == Some(NonRemote) }
    function RemoteOnlyNotRemoteError(): ErrorDetails
    {
      ModelValidationError(ChannelRemoteLoc, ChannelShown(), RemoteOnlyMessageStart + ShowInt(initiationChannel) + RemoteOnlyMessageEnd)
    }

    predicate SctInstNotEuro() { paymentScheme == SepaInstantScheme && base.transactionCurrency != Euro }
    function SctInstNotEuroError(): ErrorDetails
    {
      ModelValidationError(SchemeCurrencyLoc, Pair(paymentScheme, base.transactionCurrency), SctInstCurrencyMessage)
    }

    predicate AccountCurrencyMissing() { accountCurrency.None? && base.roleInTransaction == 1 }
    function AccountCurrencyMissingError(): ErrorDetails
    {
      ModelValidationError(AccountCurrencyRoleLoc, CurrencyRoleShown(), AccountCurrencyMissingMessage)
    }

    predicate AccountCurrencyForPayee() { Truthy(accountCurrency) && base.roleInTransaction == 2 }
    function AccountCurrencyForPayeeError(): ErrorDetails
    {
      ModelValidationError(AccountCurrencyRoleLoc, CurrencyRoleShown(), AccountCurrencyForPayeeMessage)
    }

    predicate AccountValueMissing() { accountValue.None? && base.roleInTransaction == 1 }
    function AccountValueMissingError(): ErrorDetails
    {
      ModelValidationError(AccountValueRoleLoc, ValueRoleShown(), AccountValueMissingMessage)
    }

    predicate AccountValueForPayee() { TruthyFloat(accountValue) && base.roleInTransaction == 2 }
    function AccountValueForPayeeError(): ErrorDetails
    {
      ModelValidationError(AccountValueRoleLoc, ValueRoleShown(), AccountValueForPayeeMessage)
    }

    predicate ChannelMissing() { initiationChannel.None? && base.roleInTransaction == 1 }
    function ChannelMissingError(): ErrorDetails
    {
      ModelValidationError(ChannelRoleLoc, ChannelRoleShown(), ChannelMissingMessage)
    }

    predicate ChannelForPayee() { TruthyInt(initiationChannel) && base.roleInTransaction == 2 }
    function ChannelForPayeeError(): ErrorDetails
    {
      ModelValidationError(ChannelRoleLoc, ChannelRoleShown(), ChannelForPayeeMessage)
    }

    predicate RemoteMissing() { remoteInitiation.None? && base.roleInTransaction == 1 }
    function RemoteMissingError(): ErrorDetails
    {
      ModelValidationError(RemoteRoleLoc, RemoteRoleShown(), InstantRemoteMissingMessage)
    }

    predicate RemoteForPayee() { Truthy(remoteInitiation) && base.roleInTransaction == 2 }
    function RemoteForPayeeError(): ErrorDetails
    {
      ModelValidationError(RemoteRoleLoc, RemoteRoleShown(), InstantRemoteForPayeeMessage)
    }

    predicate SniMissing() { sniCode.None? && base.roleInTransaction == 2 && paymentServiceUser == NonMfiUser }
    function SniMissingError(): ErrorDetails
    {
      ModelValidationError(SniRoleUserLoc, SniShown(), InstantSniMissingMessage)
    }

    predicate SniForOthers() { Truthy(sniCode) && base.roleInTransaction == 2 && paymentServiceUser != NonMfiUser }
    function SniForOthersError(): ErrorDetails
    {
      ModelValidationError(SniRoleUserLoc, SniShown(), SniForOthersMessage)
    }

    predicate SniForPayer() { Truthy(sniCode) && base.roleInTransaction == 1 }
    function SniForPayerError(): ErrorDetails
    {
      ModelValidationError(SniRoleLoc, RemoteRoleShown(), SniForPayerMessage)
    }

    function TimeOutsidePeriod(): Option<ErrorDetails>
    {
      if base.dateFrom.Some? && base.dateTo.Some?
      then ValidateTransactionTimeBetweenDates(transactionTime, base.dateFrom.value, base.dateTo.value) else None
    }

    /** The rules of `validate_model`, in the order they are checked; the payment type is not compared with the
        header, as the enum allows CT1 only. The first group checks the channel, the scheme and the account
        fields, the second the initiation fields, the SNI code and the period. */
    function Rules(): seq<Option<ErrorDetails>>
    {
      AccountRules() + InitiationRules()
    }

    function AccountRules(): seq<Option<ErrorDetails>>
    {
      [When(TerminalRemote(), TerminalRemoteError()), When(RemoteOnlyNotRemote(), RemoteOnlyNotRemoteError()),
       When(SctInstNotEuro(), SctInstNotEuroError()), When(AccountCurrencyMissing(), AccountCurrencyMissingError()),
       When(AccountCurrencyForPayee(), AccountCurrencyForPayeeError()),
       When(AccountValueMissing(), AccountValueMissingError()),
       When(AccountValueForPayee(), AccountValueForPayeeError())]
    }

    function InitiationRules(): seq<Option<ErrorDetails>>
    {
      [When(ChannelMissing(), ChannelMissingError()),
       When(ChannelForPayee(), ChannelForPayeeError()), When(RemoteMissing(), RemoteMissingError()),
       When(RemoteForPayee(), RemoteForPayeeError()), When(SniMissing(), SniMissingError()),
       When(SniForOthers(), SniForOthersError()), When(SniForPayer(), SniForPayerError()), TimeOutsidePeriod()]
    }

    predicate Acceptable()
    {
      AccountAcceptable() && InitiationAcceptable()
    }

    predicate AccountAcceptable()
    {
      !(initiationChannel == Some(2220) && remoteInitiation == Some(Remote))
      && !(initiationChannel.Some? && initiationChannel.value in RemoteOnlyChannels && remoteInitiation == Some(NonRemote))
      && (paymentScheme == SepaInstantScheme ==> base.transactionCurrency == Euro)
      && (base.roleInTransaction == 1 ==> accountCurrency.Some? && accountValue.Some?)
      && (base.roleInTransaction == 2 ==> !Truthy(accountCurrency) && !TruthyFloat(accountValue))
    }

    predicate InitiationAcceptable()
    {
      (base.roleInTransaction == 1 ==> initiationChannel.Some? && remoteInitiation.Some? && !Truthy(sniCode))
      && (base.roleInTransaction == 2 ==> !TruthyInt(initiationChannel) && !Truthy(remoteInitiation))
      && (base.roleInTransaction == 2 && paymentServiceUser == NonMfiUser ==> sniCode.Some?)
      && (base.roleInTransaction == 2 && paymentServiceUser != NonMfiUser ==> !Truthy(sniCode))
      && (base.dateFrom.Some? && base.dateTo.Some? ==> Within(transactionTime.date, base.dateFrom.value, base.dateTo.value))
    }

    /** The record is rejected exactly when it is not acceptable, with one
        error per violated rule. */
    lemma RulesAcceptExactly()
      ensures Collect(Rules()) == [] <==> Acceptable()
      ensures |Collect(Rules())| == |set i | 0 <= i < |Rules()| && Rules()[i].Some?|
    {
      CollectSplit(AccountRules(), InitiationRules());
      AccountRulesAccept();
      InitiationRulesAccept();
      CollectCount(Rules());
    }

    lemma AccountRulesAccept()
      ensures Collect(AccountRules()) == [] <==> AccountAcceptable()
    {
      var rules := AccountRules();
      assert CollectFirst(rules, 1) == CollectFirst(rules, 0) + Appended(rules[0]);
      assert CollectFirst(rules, 2) == CollectFirst(rules, 1) + Appended(rules[1]);
      assert CollectFirst(rules, 3) == CollectFirst(rules, 2) + Appended(rules[2]);
      assert CollectFirst(rules, 4) == CollectFirst(rules, 3) + Appended(rules[3]);
      assert CollectFirst(rules, 5) == CollectFirst(rules, 4) + Appended(rules[4]);
      assert CollectFirst(rules, 6) == CollectFirst(rules, 5) + Appended(rules[5]);
      assert CollectFirst(rules, 7) == CollectFirst(rules, 6) + Appended(rules[6]);
    }

    lemma InitiationRulesAccept()
      ensures Collect(InitiationRules()) == [] <==> InitiationAcceptable()
    {
      var rules := InitiationRules();
      assert CollectFirst(rules, 1) == CollectFirst(rules, 0) + Appended(rules[0]);
      assert CollectFirst(rules, 2) == CollectFirst(rules, 1) + Appended(rules[1]);
      assert CollectFirst(rules, 3) == CollectFirst(rules, 2) + Appended(rules[2]);
      assert CollectFirst(rules, 4) == CollectFirst(rules, 3) + Appended(rules[3]);
      assert CollectFirst(rules, 5) == CollectFirst(rules, 4) + Appended(rules[4]);
      assert CollectFirst(rules, 6) == CollectFirst(rules, 5) + Appended(rules[5]);
      assert CollectFirst(rules, 7) == CollectFirst(rules, 6) + Appended(rules[6]);
      assert CollectFirst(rules, 8) == CollectFirst(rules, 7) + Appended(rules[7]);
    }
  }

  /** A zero account value counts as not reported for a payee's PSP, yet as
      reported for a payer's PSP: neither account_value rule fires. */
  lemma ZeroAccountValue(t: InstantCreditTransfer)
    requires t.accountValue.Some? && IsZero(t.accountValue.value)
    ensures !t.AccountValueMissing() && !t.AccountValueForPayee()
  {
  }

  function InstantCreditTransferOf(m: map<string, Typed>): InstantCreditTransfer
  {
    InstantCreditTransfer(BaseTransactionOf(m), StrAt(m, "payment_type"), StrAt(m, "counterparty_country"),
                          DateTimeAt(m, "transaction_time"), OptFloatAt(m, "account_value"), OptStrAt(m, "account_currency"),
                          StrAt(m, "payment_service_user"), OptStrAt(m, "sni_code"), OptIntAt(m, "initiation_channel"),
                          OptStrAt(m, "remote_initiation"), StrAt(m, "payment_scheme"))
  }

  function ValidateInstantCreditTransfer(env: Env, v: Value): (r: Outcome<InstantCreditTransfer>)
  {
    TwoStage(ParseWith(env, InstantCreditTransferFields, v, InstantCreditTransferOf),
             (c: InstantCreditTransfer) => Collect(c.Rules()))
  }

  /** An instant credit transfer validates exactly when its fields do and
      its rules accept it; field errors leave the rules unchecked. */
  lemma InstantCreditTransferPipeline(env: Env, v: Value)
    ensures ValidateFields(env, InstantCreditTransferFields, v).Invalid? ==>
      ValidateInstantCreditTransfer(env, v) == Invalid(ValidateFields(env, InstantCreditTransferFields, v).errors)
    ensures ValidateInstantCreditTransfer(env, v).Valid? <==>
      ValidateFields(env, InstantCreditTransferFields, v).Valid? && InstantCreditTransferOf(ValidateFields(env, InstantCreditTransferFields, v).value).Acceptable()
  {
    if ValidateFields(env, InstantCreditTransferFields, v).Valid? {
      InstantCreditTransferOf(ValidateFields(env, InstantCreditTransferFields, v).value).RulesAcceptExactly();
    }
  }

  // ----- the rules shared by both transfers -----

  /** The remote-only channels are channels of both transfers, and so is
      the terminal channel 2220. */
  lemma RemoteOnlyChannelsAreTransferChannels()
    ensures forall c :: c in RemoteOnlyChannels ==> c in InitiationChannelCreditTransfer && c in InitiationChannelInstantCreditTransfer
    ensures 2220 in InitiationChannelInstantCreditTransfer
  {
  }

  /** SEPA credit transfers and SCT Inst transfers must be in euro. */
  lemma EuroSchemes(c: CreditTransfer, t: InstantCreditTransfer)
    requires c.Acceptable() && t.Acceptable()
    ensures c.paymentScheme == SepaScheme ==> c.base.transactionCurrency == Euro
    ensures t.paymentScheme == SepaInstantScheme ==> t.base.transactionCurrency == Euro
  {
  }

  // ----- as written -----

  /** The SNI errors show remote_initiation as their input, where the
      located field is sni_code. */
  lemma SniInputAsWritten()
    ensures var c := CreditTransfer(BaseTransaction("1", 0, "SEK", 1, None, None, None), "CT0", Sweden, Date(2025, 1, 2),
                                    "P", Some("64190"), Some(2210), Some("R"), "CTS_OTHO");
      c.SniForPayer() && c.SniForPayerError().loc[0] == "sni_code" && c.SniForPayerError().input == Str("R, 1")
  {
  }

  /** An explicit null sni_code aborts validation as written: the
      after-validator calls `.upper()` on it. The corrected check reads it
      as not reported. */
  lemma NullSniCodeAsWritten(env: Env)
    ensures var members := [Member("sni_code", Null)];
      var f := CreditTransferFields[11];
      CheckFieldAsWritten(env, f, members).OtherError? && CheckField(env, f, members) == Success(Absent)
  {
    var members := [Member("sni_code", Null)];
    assert Lookup(members, "sni_code") == Some(Null);
  }

  /** A no-break space between date and time passes as the format's blank. */
  lemma TransactionTimeTakesNoBreakSpace(t: DateTime)
    requires ValidDateTime(t)
    ensures var s := FormatDateTime(t);
      ParseTransactionTime(Str(s[..10] + "\U{A0}" + s[11..])).Success?
      && ParseTransactionTime(Str(s[..10] + "\U{A0}" + s[11..])).value == t
  {
    var s := FormatDateTime(t);
    IsoDateTimeOfFormat(t);
    assert s[10] == ' ';
    StrptimeTakesUnicodeSpace(s, '\U{A0}');
    assert s[..10] + "\U{A0}" + s[11..] == s[..10] + ['\U{A0}'] + s[11..];
  }

  /** A non-string transaction_time reaches `strptime` as written, and the
      `TypeError` it raises is not the `ValueError` the validator catches.
      The corrected check reports the source's format message instead. */
  lemma NonStringTransactionTimeAsWritten(env: Env)
    ensures var f := InstantCreditTransferFields[9];
      f.name == "transaction_time"
      && CheckFieldAsWritten(env, f, [Member("transaction_time", Int(5))]).OtherError?
      && CheckFieldAsWritten(env, f, [Member("transaction_time", Null)]).OtherError?
      && CheckField(env, f, [Member("transaction_time", Int(5))]).Failure?
      && CheckField(env, f, [Member("transaction_time", Null)]).Failure?
      && ParseTransactionTime(Int(5)) == Failure(TransactionTimeFormatMessage + TypeName(Int(5)) + ": " + Render(Int(5)))
  {
    assert Lookup([Member("transaction_time", Int(5))], "transaction_time") == Some(Int(5));
    assert Lookup([Member("transaction_time", Null)], "transaction_time") == Some(Null);
  }

  /** The same for an explicit null account_currency of an instant credit
      transfer. */
  lemma NullAccountCurrencyAsWritten(env: Env)
    ensures var members := [Member("account_currency", Null)];
      var f := InstantCreditTransferFields[11];
      CheckFieldAsWritten(env, f, members).OtherError? && CheckField(env, f, members) == Success(Absent)
  {
    var members := [Member("account_currency", Null)];
    assert Lookup(members, "account_currency") == Some(Null);
  }
}
