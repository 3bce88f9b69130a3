/** The code sets of the quantity-item variants. */
module QuantityItemsEnums {
  import opened Sequences
  import opened FullEnums

  const QuantityItemsCard: seq<string> := ["CARD"]
  const QuantityItemsPosTerminal: seq<string> := ["POS"]
  const QuantityItemsEMoneyTerminal: seq<string> := ["EMT"]
  const QuantityItemsATMs: seq<string> := ["ATM"]
  const QuantityItemsPaymentAccounts: seq<string> := ["PA"]
  const PaymentSchemeCard: seq<string> := ["PCS_MCRD", "PCS_VISA", "PCS_AMEX", "PCS_DINE", "PCS_OTH"]
  const PaymentServiceUserCard: seq<string> := ["P", "NMFIXP"]
  const PaymentServiceUserPaymentAccounts: seq<string> := ["P", "NMFIXP"]
  const CardTypeCard: seq<int> := [11, 12, 13]
  const TerminalFunctionPosTerminal: seq<int> := [1, 2]
  const TerminalFunctionEMoneyTerminals: seq<int> := [1, 3, 4]
  const TerminalFunctionATMs: seq<int> := [5, 6, 7, 8, 9, 10, 11]

  /** The five singleton sets split QuantityItems: together they are all of
      it, and no two share a code. */
  lemma QuantityItemsPartition()
    ensures Elems(QuantityItemsCard) + Elems(QuantityItemsPosTerminal) + Elems(QuantityItemsEMoneyTerminal)
      + Elems(QuantityItemsATMs) + Elems(QuantityItemsPaymentAccounts) == Elems(QuantityItems)
    ensures |QuantityItemsCard| == |QuantityItemsPosTerminal| == |QuantityItemsEMoneyTerminal|
      == |QuantityItemsATMs| == |QuantityItemsPaymentAccounts| == 1
    ensures Distinct(QuantityItems) && |Elems(QuantityItems)| == 5
  {
    DistinctCard(QuantityItems);
  }

  /** The card schemes of the card-count variants, all of them schemes. */
  lemma CardSchemes()
    ensures Elems(PaymentSchemeCard) == {"PCS_MCRD", "PCS_VISA", "PCS_AMEX", "PCS_DINE", "PCS_OTH"}
    ensures Elems(PaymentSchemeCard) <= Elems(PaymentScheme)
  {
  }

  /** POS terminals {1, 2}, e-money terminals {1, 3, 4}, ATMs 5 to 11; POS
      and ATM functions are disjoint. */
  lemma TerminalScopes()
    ensures Elems(TerminalFunctionATMs) == {5, 6, 7, 8, 9, 10, 11}
    ensures Elems(TerminalFunctionPosTerminal) * Elems(TerminalFunctionATMs) == {}
    ensures Elems(TerminalFunctionPosTerminal) + Elems(TerminalFunctionEMoneyTerminals) + Elems(TerminalFunctionATMs)
      == Elems(TerminalFunction)
  {
  }
}
