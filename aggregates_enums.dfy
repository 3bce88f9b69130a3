/** The code sets of the aggregate variants. */
module AggregatesEnums {
  import opened Sequences
  import opened FullEnums

  const PaymentTypeEMoney: seq<string> := ["EMP0"]
  const PaymentTypeMoneyRemittances: seq<string> := ["MREM"]
  const PaymentTypeOTC: seq<string> := ["CWOTC", "CDOTC"]
  const PaymentTypePaymentInitiationServices: seq<string> := ["PI"]
  const PaymentTypeAggregates: seq<string> := ["EMP0", "MREM", "CWOTC", "CDOTC", "PI"]
  const InitiationChannelEMoney: seq<int> := [2231, 2232, 2240, 2251, 2252]
  const PaymentServiceUserEMoney: seq<string> := ["P", "NMFIXP"]
  const PaymentServiceUserOTC: seq<string> := ["P", "NMFIXP"]

  /** The header's aggregate types are the four variants' types together. */
  lemma PaymentTypeAggregatesIsUnion()
    ensures Elems(PaymentTypeAggregates) ==
      Elems(PaymentTypeEMoney) + Elems(PaymentTypeMoneyRemittances) + Elems(PaymentTypeOTC)
      + Elems(PaymentTypePaymentInitiationServices)
    ensures Elems(PaymentTypeOTC) == {"CWOTC", "CDOTC"}
    ensures Elems(PaymentTypeAggregates) <= Elems(PaymentType)
  {
  }

  /** The e-money channels are mobile or e-money cards, within the full
      domain; the e-money and OTC users exclude MFIs. */
  lemma EMoneyScopes()
    ensures Elems(InitiationChannelEMoney) == {2231, 2232, 2240, 2251, 2252}
    ensures Elems(InitiationChannelEMoney) <= Elems(InitiationChannel)
    ensures Elems(PaymentServiceUserEMoney) == Elems(PaymentServiceUserOTC) == Elems(PaymentServiceUser) - {"MFI"}
  {
  }
}
