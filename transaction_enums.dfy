/** The code sets of the transaction and card-payment variants. Every
    member is built from a code of the full domain. */
module TransactionEnums {
  import opened Sequences
  import opened FullEnums

  const PaymentTypeCardPaymentIssuer: seq<string> := ["CPI", "CWI", "CADVI"]
  const PaymentTypeCardPaymentAcquirer: seq<string> := ["CPA", "CADVA"]
  const PaymentTypeCashTransactionATMOwners: seq<string> := ["CW0", "CD0"]
  const PaymentTypeCreditTransfer: seq<string> := ["CT0"]
  const PaymentTypeInstantCreditTransfer: seq<string> := ["CT1"]
  const PaymentTypeTransactions: seq<string> := ["CPI", "CWI", "CADVI", "CPA", "CADVA", "CW0", "CD0", "CT0", "CT1"]
  const PaymentServiceUserCardPaymentIssuer: seq<string> := ["P", "NMFIXP"]
  const InitiationChannelCardPaymentIssuer: seq<int> := [1000, 2221, 2222, 2211, 2212, 2230, 3000]
  const InitiationChannelCardPaymentAquierer: seq<int> := [1000, 2222, 2211, 2212, 2230, 3000]
  const InitiationChannelCreditTransfer: seq<int> := [1200, 2100, 2210, 2211, 2213, 2220, 2231, 2232, 3000, 5000]
  const InitiationChannelInstantCreditTransfer: seq<int> := [2100, 2210, 2211, 2213, 2220, 2231, 2232, 3000, 5000]
  const PaymentSchemeCardPaymentIssuer: seq<string> := ["PCS_MCRD", "PCS_VISA", "PCS_AMEX", "PCS_DINE", "PCS_OTH"]
  const PaymentSchemeCardPaymentAcquirer: seq<string> :=
    ["PCS_MCRD", "PCS_VISA", "PCS_AMEX", "PCS_DINE", "PCS_CUP", "PCS_JCB", "PCS_OTH"]
  const PaymentSchemeCashTransactionsATMOwners: seq<string> :=
    ["PCS_MCRD", "PCS_VISA", "PCS_CUP", "PCS_JCB", "PCS_AMEX", "PCS_DINE", "PCS_OTH"]
  const PaymentSchemeCreditTransfer: seq<string> := ["CTS_SEPA", "CTS_NPC", "CTS_OTHRIX", "CTS_OTHXB", "CTS_ONUS", "CTS_OTHO"]
  const PaymentSchemeInstantCreditTransfer: seq<string> :=
    ["CTS_NPCI", "CTS_SEPAI", "CTS_NPCOLO", "CTS_EPCOLO", "CTS_OTHSIP", "CTS_OTHO"]
  const CardTypeCardPaymentIssuer: seq<int> := [11, 12, 13]
  const CardTypeCardPaymentAcquirer: seq<int> := [111, 131, 16]

  /** Each scoped set lies inside its full domain. */
  lemma ScopedWithinFull()
    ensures Elems(PaymentTypeTransactions) <= Elems(PaymentType)
    ensures Elems(PaymentServiceUserCardPaymentIssuer) <= Elems(PaymentServiceUser)
    ensures Elems(InitiationChannelCardPaymentIssuer) <= Elems(InitiationChannel)
    ensures Elems(InitiationChannelCreditTransfer) <= Elems(InitiationChannel)
    ensures Elems(PaymentSchemeCardPaymentAcquirer) <= Elems(PaymentScheme)
    ensures Elems(PaymentSchemeCreditTransfer) + Elems(PaymentSchemeInstantCreditTransfer) <= Elems(PaymentScheme)
    ensures Elems(CardTypeCardPaymentIssuer) + Elems(CardTypeCardPaymentAcquirer) <= Elems(CardType)
  {
  }

  /** The header's payment types are exactly the five variants' types
      together, and the five are pairwise disjoint. */
  lemma PaymentTypeTransactionsIsUnion()
    ensures Elems(PaymentTypeTransactions) ==
      Elems(PaymentTypeCardPaymentIssuer) + Elems(PaymentTypeCardPaymentAcquirer)
      + Elems(PaymentTypeCashTransactionATMOwners) + Elems(PaymentTypeCreditTransfer)
      + Elems(PaymentTypeInstantCreditTransfer)
    ensures Distinct(PaymentTypeTransactions) && |Elems(PaymentTypeTransactions)| == 9
  {
    DistinctCard(PaymentTypeTransactions);
  }

  /** An issuer additionally accepts the ATM channel 2221. */
  lemma IssuerChannelsAddAtm()
    ensures Elems(InitiationChannelCardPaymentIssuer) == Elems(InitiationChannelCardPaymentAquierer) + {2221}
    ensures 2221 !in InitiationChannelCardPaymentAquierer
  {
  }

  /** An instant transfer accepts the credit-transfer channels except
      paper-based 1200. */
  lemma InstantChannelsDropPaper()
    ensures Elems(InitiationChannelInstantCreditTransfer) == Elems(InitiationChannelCreditTransfer) - {1200}
    ensures 1200 in InitiationChannelCreditTransfer
  {
  }

  /** Issuer and acquirer card types have nothing in common. */
  lemma CardTypesDisjoint()
    ensures Elems(CardTypeCardPaymentIssuer) * Elems(CardTypeCardPaymentAcquirer) == {}
  {
  }

  /** ATM owners and acquirers accept the same schemes; issuers accept
      neither China UnionPay nor JCB. */
  lemma CardSchemes()
    ensures Elems(PaymentSchemeCashTransactionsATMOwners) == Elems(PaymentSchemeCardPaymentAcquirer)
    ensures Elems(PaymentSchemeCardPaymentIssuer) == Elems(PaymentSchemeCardPaymentAcquirer) - {"PCS_CUP", "PCS_JCB"}
  {
  }

  /** The two credit-transfer variants share only the scheme CTS_OTHO. */
  lemma TransferSchemesShareOtho()
    ensures Elems(PaymentSchemeCreditTransfer) * Elems(PaymentSchemeInstantCreditTransfer) == {"CTS_OTHO"}
  {
  }
}
