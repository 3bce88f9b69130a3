/** The full code domains. Each enum is the list of its codes in
    declaration order; a StrEnum lists strings, an IntEnum integers. */
module FullEnums {
  import opened Sequences

  const Environment: seq<string> := ["T", "P"]
  const RoleInTransaction: seq<int> := [1, 2]              // payer's PSP, payee's PSP
  const PaymentServiceUser: seq<string> := ["P", "NMFIXP", "MFI"]
  const TransactionType: seq<string> := ["PUR", "RET", "ORC", "P2P", "REV", "CHB", "REP"]
  const RemoteInitiation: seq<string> := ["R", "NR"]
  const Contactless: seq<string> := ["CNT", "CNTL1", "MAG", "OTH"]
  const PaymentType: seq<string> :=
    ["CT0", "CT1", "DD", "CPI", "CPA", "CWI", "CW0", "CD0", "CADVI", "CADVA", "EMP0", "MREM", "PI", "CWOTC", "CDOTC"]
  const CardFunction: seq<string> := ["CF1", "CF2", "CF3", "CF4", "CF5", "CF6"]
  const EmoneyFunction: seq<int> := [41, 42]               // stored, access
  const ContactlessFunction: seq<int> := [10, 11, 12]
  const PaymentScheme: seq<string> :=
    ["PCS_MCRD", "PCS_VISA", "PCS_CUP", "PCS_JCB", "PCS_AMEX", "PCS_DINE", "PCS_OTH",
     "CTS_NPCI", "CTS_SEPAI", "CTS_NPCOLO", "CTS_EPCOLO", "CTS_OTHSIP", "CTS_SEPA", "CTS_NPC",
     "CTS_OTHRIX", "CTS_OTHXB", "CTS_ONUS", "CTS_OTHO"]
  const CardType: seq<int> := [11, 111, 12, 13, 131, 16]
  const InitiationChannel: seq<int> :=
    [1000, 1200, 2100, 2200, 2210, 2211, 2212, 2213, 2220, 2221, 2222, 2230, 2231, 2232,
     2240, 2251, 2252, 2270, 3000, 5000]
  const PispInitiatedTransaction: seq<string> := ["ICT0", "ICT1", "OTH"]
  const QuantityItems: seq<string> := ["CARD", "PA", "POS", "EMT", "ATM"]
  const TypeOfAccount: seq<string> := ["PA", "EMA"]
  const TerminalFunction: seq<int> := [1, 2, 3, 4, 5, 6, 7, 8, 9, 10, 11]
  const ConcentrationRatioType: seq<int> := [2, 3]         // by value, by volume
  const PaymentSystem: seq<string> := ["RIX", "RIXI", "BG", "DC"]
  const ParticipantSector: seq<string> := ["S122C", "S121", "S13", "S125D1", "S12P", "SZP"]
  const ParticipantType: seq<int> := [1, 2]                // direct, indirect
  const PaymentSystemMetric: seq<string> := ["T", "C", "P"]

  /** Whether `s` starts with `p`. */
  predicate HasPrefix(s: string, p: string)
  {
    |p| <= |s| && s[..|p|] == p
  }

  /** Fifteen payment types, none listed twice. */
  lemma PaymentTypeCodes()
    ensures Distinct(PaymentType) && |Elems(PaymentType)| == 15
  {
    DistinctCard(PaymentType);
  }

  /** Twenty initiation channels, increasing from 1000 to 5000. */
  lemma InitiationChannelCodes()
    ensures StrictlyIncreasing(InitiationChannel) && Distinct(InitiationChannel)
    ensures |Elems(InitiationChannel)| == 20
    ensures forall c :: c in InitiationChannel ==> 1000 <= c <= 5000
  {
    IncreasingIsDistinct(InitiationChannel);
    DistinctCard(InitiationChannel);
  }

  /** Eighteen payment schemes: seven card schemes, then eleven
      credit-transfer schemes. */
  lemma PaymentSchemeCodes()
    ensures Distinct(PaymentScheme) && |Elems(PaymentScheme)| == 18
    ensures forall i :: 0 <= i < 7 ==> HasPrefix(PaymentScheme[i], "PCS_")
    ensures forall i :: 7 <= i < 18 ==> HasPrefix(PaymentScheme[i], "CTS_")
  {
    var cards, transfers := PaymentScheme[..7], PaymentScheme[7..];
    assert PaymentScheme == cards + transfers;
    CardSchemesDistinct();
    TransferSchemesDistinct();
    forall x | x in Elems(cards) ensures x !in Elems(transfers) {
      assert x[0] == 'P';
    }
    DistinctConcat(cards, transfers);
    DistinctCard(PaymentScheme);
  }

  lemma CardSchemesDistinct()
    ensures Distinct(PaymentScheme[..7])
    ensures forall i :: 0 <= i < 7 ==> HasPrefix(PaymentScheme[i], "PCS_")
  {
  }

  lemma TransferSchemesDistinct()
    ensures Distinct(PaymentScheme[7..])
    ensures forall i :: 7 <= i < 18 ==> HasPrefix(PaymentScheme[i], "CTS_")
  {
  }
}
