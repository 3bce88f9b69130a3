/** The code sets of direct debits. */
module DirectDebitsEnums {
  import opened Sequences
  import opened FullEnums
  import TransactionEnums
  import AggregatesEnums

  const PaymentTypeDirectDebits: seq<string> := ["DD"]
  const InitiationChannelDirectDebits: seq<int> := [2100, 2200, 2270]

  /** Direct debits are file/batch, single payment or recurring Swish, all
      full-domain codes; DD is neither a transaction nor an aggregate type. */
  lemma DirectDebitScopes()
    ensures Elems(PaymentTypeDirectDebits) == {"DD"} <= Elems(PaymentType)
    ensures Elems(InitiationChannelDirectDebits) == {2100, 2200, 2270} <= Elems(InitiationChannel)
    ensures "DD" !in TransactionEnums.PaymentTypeTransactions && "DD" !in AggregatesEnums.PaymentTypeAggregates
  {
  }
}
