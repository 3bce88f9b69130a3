/** The code sets of payment-system operators. */
module PaymentSystemOperatorsEnums {
  import opened Sequences
  import opened FullEnums

  const PaymentTypePaymentSystems: seq<string> := ["DD", "CT0", "CT1"]
  const PaymentSystemMetricTransactions: seq<string> := ["T"]
  const PaymentSystemMetricConcentration: seq<string> := ["C"]
  const PaymentSystemMetricParticipants: seq<string> := ["P"]

  /** The three metric sets are singletons, pairwise disjoint, and together
      all of PaymentSystemMetric; the payment types are full-domain codes. */
  lemma MetricPartition()
    ensures Elems(PaymentSystemMetricTransactions) + Elems(PaymentSystemMetricConcentration)
      + Elems(PaymentSystemMetricParticipants) == Elems(PaymentSystemMetric)
    ensures Elems(PaymentSystemMetricTransactions) * Elems(PaymentSystemMetricConcentration) == {}
    ensures Elems(PaymentSystemMetricTransactions) * Elems(PaymentSystemMetricParticipants) == {}
    ensures Elems(PaymentSystemMetricConcentration) * Elems(PaymentSystemMetricParticipants) == {}
    ensures Elems(PaymentTypePaymentSystems) == {"DD", "CT0", "CT1"} <= Elems(PaymentType)
  {
  }
}
