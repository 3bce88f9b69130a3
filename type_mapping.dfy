/** The dispatch table: which item schema validates an item, given the
    payment type, metric or quantity item it reports. The table is built
    once, by inserting every code of every scoped enumeration, in order,
    into an initially empty map. */
module TypeMapping {
  import opened Sequences
  import TransactionEnums
  import DirectDebitsEnums
  import AggregatesEnums
  import PaymentSystemOperatorsEnums
  import QuantityItemsEnums

  /** The eighteen item schemas. */
  datatype Schema =
    | CardPaymentAcquirer | CardPaymentIssuer | CashTransactionsATMOwners | CreditTransfer | InstantCreditTransfer
    | DirectDebits
    | EMoney | OTC | MoneyRemittances | PaymentInitiationServices
    | ParticipantsInPaymentSystems | ConcentrationRatio | TransactionsInPaymentSystems
    | ATMs | Cards | EMoneyTerminals | PosTerminals | PaymentAccounts

  /** One entry of `types_to_validator`: a scoped enumeration, as its codes
      in declaration order, and the schema its codes select. */
  datatype Entry = Entry(types: seq<string>, validator: Schema)

  /** `types_to_validator`, in the order of its dictionary display, in the
      five groups its comments name. */
  const TransactionEntries: seq<Entry> := [
    Entry(TransactionEnums.PaymentTypeCardPaymentAcquirer, CardPaymentAcquirer),
    Entry(TransactionEnums.PaymentTypeCardPaymentIssuer, CardPaymentIssuer),
    Entry(TransactionEnums.PaymentTypeCashTransactionATMOwners, CashTransactionsATMOwners),
    Entry(TransactionEnums.PaymentTypeCreditTransfer, CreditTransfer),
    Entry(TransactionEnums.PaymentTypeInstantCreditTransfer, InstantCreditTransfer)
  ]
  const DirectDebitEntries: seq<Entry> := [
    Entry(DirectDebitsEnums.PaymentTypeDirectDebits, DirectDebits)
  ]
  const AggregateEntries: seq<Entry> := [
    Entry(AggregatesEnums.PaymentTypeEMoney, EMoney),
    Entry(AggregatesEnums.PaymentTypeOTC, OTC),
    Entry(AggregatesEnums.PaymentTypeMoneyRemittances, MoneyRemittances),
    Entry(AggregatesEnums.PaymentTypePaymentInitiationServices, PaymentInitiationServices)
  ]
  const PaymentSystemEntries: seq<Entry> := [
    Entry(PaymentSystemOperatorsEnums.PaymentSystemMetricParticipants, ParticipantsInPaymentSystems),
    Entry(PaymentSystemOperatorsEnums.PaymentSystemMetricConcentration, ConcentrationRatio),
    Entry(PaymentSystemOperatorsEnums.PaymentSystemMetricTransactions, TransactionsInPaymentSystems)
  ]
  const QuantityItemEntries: seq<Entry> := [
    Entry(QuantityItemsEnums.QuantityItemsATMs, ATMs),
    Entry(QuantityItemsEnums.QuantityItemsCard, Cards),
    Entry(QuantityItemsEnums.QuantityItemsEMoneyTerminal, EMoneyTerminals),
    Entry(QuantityItemsEnums.QuantityItemsPosTerminal, PosTerminals),
    Entry(QuantityItemsEnums.QuantityItemsPaymentAccounts, PaymentAccounts)
  ]
  const TypesToValidator: seq<Entry> :=
    TransactionEntries + DirectDebitEntries + AggregateEntries + PaymentSystemEntries + QuantityItemEntries

  /** The 23 codes of the table, in the order the loop visits them: the
      fifteen payment types, then the three metrics and the five quantity
      items. */
  const PaymentTypeCodes: seq<string> :=
    ["CPA", "CADVA", "CPI", "CWI", "CADVI", "CW0", "CD0", "CT0", "CT1", "DD", "EMP0", "CWOTC", "CDOTC", "MREM", "PI"]
  const ItemCodes: seq<string> := ["P", "C", "T", "ATM", "CARD", "EMT", "POS", "PA"]
  const AllCodes: seq<string> := PaymentTypeCodes + ItemCodes

  /** Every code of the entries, entry after entry. */
  function Codes(entries: seq<Entry>): seq<string>
  {
    if |entries| == 0 then [] else Codes(entries[..|entries| - 1]) + entries[|entries| - 1].types
  }

  /** The inner loop as a value: `mapping[t] = validator` for each code in
      turn, a later assignment replacing an earlier one. */
  function Insert(mapping: map<string, Schema>, types: seq<string>, validator: Schema): map<string, Schema>
  {
    if |types| == 0 then mapping else Insert(mapping, types[..|types| - 1], validator)[types[|types| - 1] := validator]
  }

  /** Both loops as a value, starting from the empty map. */
  function Build(entries: seq<Entry>): map<string, Schema>
  {
    if |entries| == 0 then map[] else Insert(Build(entries[..|entries| - 1]), entries[|entries| - 1].types, entries[|entries| - 1].validator)
  }

  /** The module-level loop that fills `VALIDATOR_MAPPING`. */
  method BuildValidatorMapping(entries: seq<Entry>) returns (mapping: map<string, Schema>)
    ensures mapping == Build(entries)
  {
    mapping := map[];
    var i := 0;
    while i < |entries|
      invariant 0 <= i <= |entries|
      invariant mapping == Build(entries[..i])
    {
      var types := entries[i].types;
      var j := 0;
      while j < |types|
        invariant 0 <= j <= |types|
        invariant mapping == Insert(Build(entries[..i]), types[..j], entries[i].validator)
      {
        mapping := mapping[types[j] := entries[i].validator];
        assert types[..j + 1][..j] == types[..j];
        j := j + 1;
      }
      assert types[..j] == types;
      assert entries[..i + 1][..i] == entries[..i];
      i := i + 1;
    }
    assert entries[..i] == entries;
  }

  /** The inner loop adds exactly its codes, each mapped to its validator,
      and keeps every other key as it was. */
  lemma {:induction false} InsertFacts(mapping: map<string, Schema>, types: seq<string>, validator: Schema)
    ensures Insert(mapping, types, validator).Keys == mapping.Keys + Elems(types)
    ensures forall t :: t in types ==> Insert(mapping, types, validator)[t] == validator
    ensures forall k :: k in mapping && k !in types ==> Insert(mapping, types, validator)[k] == mapping[k]
  {
    if |types| > 0 {
      var init := types[..|types| - 1];
      InsertFacts(mapping, init, validator);
      assert types == init + [types[|types| - 1]];
      assert Elems(types) == Elems(init) + {types[|types| - 1]};
    }
  }

  /** The keys of the table are the codes of the entries and nothing
      else. */
  lemma {:induction false} BuildKeys(entries: seq<Entry>)
    ensures Build(entries).Keys == Elems(Codes(entries))
  {
    if |entries| > 0 {
      var init := entries[..|entries| - 1];
      var last := entries[|entries| - 1];
      BuildKeys(init);
      InsertFacts(Build(init), last.types, last.validator);
      ElemsConcat(Codes(init), last.types);
    }
  }

  /** A code is mapped to the validator of the last entry that lists it. */
  lemma {:induction false} BuildLookup(entries: seq<Entry>, k: int, t: string)
    requires 0 <= k < |entries| && t in entries[k].types
    requires forall l :: k < l < |entries| ==> t !in entries[l].types
    ensures t in Build(entries) && Build(entries)[t] == entries[k].validator
  {
    var init := entries[..|entries| - 1];
    var last := entries[|entries| - 1];
    InsertFacts(Build(init), last.types, last.validator);
    if k < |entries| - 1 {
      BuildLookup(init, k, t);
    }
  }

  /** No code is listed by two entries. */
  predicate Disjoint(entries: seq<Entry>)
  {
    forall k, l, t :: 0 <= k < l < |entries| && t in entries[k].types ==> t !in entries[l].types
  }

  /** When no two entries share a code, every code of every entry selects
      that entry's validator: no assignment is overwritten. */
  lemma DisjointBuild(entries: seq<Entry>)
    requires Disjoint(entries)
    ensures forall k, t :: 0 <= k < |entries| && t in entries[k].types ==> t in Build(entries) && Build(entries)[t] == entries[k].validator
  {
    forall k, t | 0 <= k < |entries| && t in entries[k].types
      ensures t in Build(entries) && Build(entries)[t] == entries[k].validator
    {
      BuildLookup(entries, k, t);
    }
  }

  /** The codes of two runs of entries, one after the other. */
  lemma {:induction false} CodesConcat(a: seq<Entry>, b: seq<Entry>)
    ensures Codes(a + b) == Codes(a) + Codes(b)
  {
    if |b| > 0 {
      var init := b[..|b| - 1];
      assert (a + b)[..|a + b| - 1] == a + init;
      assert (a + b)[|a + b| - 1] == b[|b| - 1];
      CodesConcat(a, init);
      assert Codes(b) == Codes(init) + b[|b| - 1].types;
    } else {
      assert a + b == a;
    }
  }

  /** The codes of a run of entries, one entry at a time. */
  lemma CodesStep(entries: seq<Entry>, n: int)
    requires 0 < n <= |entries|
    ensures Codes(entries[..n]) == Codes(entries[..n - 1]) + entries[n - 1].types
  {
    assert entries[..n][..n - 1] == entries[..n - 1];
  }

  /** The eighteen enumerations visit exactly the 23 codes, in this order. */
  lemma TableCodes()
    ensures Codes(TypesToValidator) == AllCodes
  {
    CodesConcat(TransactionEntries + DirectDebitEntries + AggregateEntries + PaymentSystemEntries, QuantityItemEntries);
    CodesConcat(TransactionEntries + DirectDebitEntries + AggregateEntries, PaymentSystemEntries);
    CodesConcat(TransactionEntries + DirectDebitEntries, AggregateEntries);
    CodesConcat(TransactionEntries, DirectDebitEntries);
    TransactionCodes();
    OtherGroupCodes();
  }

  lemma TransactionCodes()
    ensures Codes(TransactionEntries) == ["CPA", "CADVA", "CPI", "CWI", "CADVI", "CW0", "CD0", "CT0", "CT1"]
  {
    var t := TransactionEntries;
    CodesStep(t, 1); CodesStep(t, 2); CodesStep(t, 3); CodesStep(t, 4); CodesStep(t, 5);
    assert t[..5] == t;
  }

  lemma OtherGroupCodes()
    ensures Codes(DirectDebitEntries) == ["DD"]
    ensures Codes(AggregateEntries) == ["EMP0", "CWOTC", "CDOTC", "MREM", "PI"]
    ensures Codes(PaymentSystemEntries) == ["P", "C", "T"]
    ensures Codes(QuantityItemEntries) == ["ATM", "CARD", "EMT", "POS", "PA"]
  {
    CodesStep(DirectDebitEntries, 1);
    assert DirectDebitEntries[..1] == DirectDebitEntries;
    var a := AggregateEntries;
    CodesStep(a, 1); CodesStep(a, 2); CodesStep(a, 3); CodesStep(a, 4);
    assert a[..4] == a;
    var p := PaymentSystemEntries;
    CodesStep(p, 1); CodesStep(p, 2); CodesStep(p, 3);
    assert p[..3] == p;
    var q := QuantityItemEntries;
    CodesStep(q, 1); CodesStep(q, 2); CodesStep(q, 3); CodesStep(q, 4); CodesStep(q, 5);
    assert q[..5] == q;
  }

  /** No code is visited twice. */
  lemma AllCodesDistinct()
    ensures Distinct(AllCodes) && |AllCodes| == 23
  {
    assert Distinct(PaymentTypeCodes);
    assert Distinct(ItemCodes);
    assert Elems(PaymentTypeCodes) * Elems(ItemCodes) == {};
    DistinctConcat(PaymentTypeCodes, ItemCodes);
  }

  /** Codes listed once overall belong to one entry only. */
  lemma {:induction false} DistinctCodesDisjoint(entries: seq<Entry>)
    requires Distinct(Codes(entries))
    ensures Disjoint(entries)
  {
    if |entries| > 0 {
      var init := entries[..|entries| - 1];
      var last := entries[|entries| - 1];
      assert Codes(entries) == Codes(init) + last.types;
      assert Distinct(Codes(init)) by {
        forall i, j | 0 <= i < j < |Codes(init)| ensures Codes(init)[i] != Codes(init)[j] {
          assert Codes(entries)[i] == Codes(init)[i] && Codes(entries)[j] == Codes(init)[j];
        }
      }
      DistinctCodesDisjoint(init);
      forall k, t | 0 <= k < |init| && t in init[k].types ensures t !in last.types {
        CodeOfEntry(init, k, t);
        var i :| 0 <= i < |Codes(init)| && Codes(init)[i] == t;
        forall j | 0 <= j < |last.types| ensures last.types[j] != t {
          assert Codes(entries)[i] == t && Codes(entries)[|Codes(init)| + j] == last.types[j];
        }
      }
      forall k, l, t | 0 <= k < l < |entries| && t in entries[k].types ensures t !in entries[l].types {
        if l < |entries| - 1 {
          assert entries[k] == init[k] && entries[l] == init[l];
        } else {
          assert entries[k] == init[k];
        }
      }
    }
  }

  /** Every code of an entry is among the codes of the entries. */
  lemma {:induction false} CodeOfEntry(entries: seq<Entry>, k: int, t: string)
    requires 0 <= k < |entries| && t in entries[k].types
    ensures t in Codes(entries)
  {
    var init := entries[..|entries| - 1];
    if k < |entries| - 1 {
      CodeOfEntry(init, k, t);
    }
  }

  /** Every code of the entries belongs to one of them. */
  lemma {:induction false} EntryOfCode(entries: seq<Entry>, t: string)
    requires t in Codes(entries)
    ensures exists k :: 0 <= k < |entries| && t in entries[k].types
  {
    var init := entries[..|entries| - 1];
    var last := entries[|entries| - 1];
    if t in last.types {
      assert t in entries[|entries| - 1].types;
    } else {
      assert t in Codes(init);
      EntryOfCode(init, t);
      var k :| 0 <= k < |init| && t in init[k].types;
      assert entries[k] == init[k];
    }
  }

  /** A schema's place in `types_to_validator`. */
  function SchemaIndex(s: Schema): nat
  {
    match s
    case CardPaymentAcquirer => 0 case CardPaymentIssuer => 1 case CashTransactionsATMOwners => 2
    case CreditTransfer => 3 case InstantCreditTransfer => 4 case DirectDebits => 5
    case EMoney => 6 case OTC => 7 case MoneyRemittances => 8 case PaymentInitiationServices => 9
    case ParticipantsInPaymentSystems => 10 case ConcentrationRatio => 11 case TransactionsInPaymentSystems => 12
    case ATMs => 13 case Cards => 14 case EMoneyTerminals => 15 case PosTerminals => 16 case PaymentAccounts => 17
  }

  /** Each schema stands in the table once, at its own place, so the
      eighteen entries name eighteen different schemas. */
  lemma ValidatorsDistinct()
    ensures |TypesToValidator| == 18
    ensures forall k :: 0 <= k < |TypesToValidator| ==> SchemaIndex(TypesToValidator[k].validator) == k
  {
    var t := TypesToValidator;
    forall k | 0 <= k < |t| ensures SchemaIndex(t[k].validator) == k {
      if k < 5 {
        assert t[k] == TransactionEntries[k];
      } else if k < 6 {
        assert t[k] == DirectDebitEntries[k - 5];
      } else if k < 10 {
        assert t[k] == AggregateEntries[k - 6];
      } else if k < 13 {
        assert t[k] == PaymentSystemEntries[k - 10];
      } else {
        assert t[k] == QuantityItemEntries[k - 13];
      }
    }
  }

  /** The table sends a code to a schema only when that schema's own
      enumeration lists the code. */
  lemma SelectedCodeIsOwn(t: string, k: int)
    requires 0 <= k < |TypesToValidator|
    requires t in Build(TypesToValidator) && Build(TypesToValidator)[t] == TypesToValidator[k].validator
    ensures t in TypesToValidator[k].types
  {
    TableCodes();
    AllCodesDistinct();
    BuildKeys(TypesToValidator);
    DistinctCodesDisjoint(TypesToValidator);
    DisjointBuild(TypesToValidator);
    EntryOfCode(TypesToValidator, t);
    var l :| 0 <= l < |TypesToValidator| && t in TypesToValidator[l].types;
    ValidatorsDistinct();
    assert TypesToValidator[l].validator == TypesToValidator[k].validator;
  }

  /** The aggregate entries whose enumeration has a single code. */
  lemma SingleCodeEntries()
    ensures TypesToValidator[6] == Entry(AggregatesEnums.PaymentTypeEMoney, EMoney)
    ensures TypesToValidator[8] == Entry(AggregatesEnums.PaymentTypeMoneyRemittances, MoneyRemittances)
    ensures TypesToValidator[9] == Entry(AggregatesEnums.PaymentTypePaymentInitiationServices, PaymentInitiationServices)
  {
    assert TypesToValidator[6] == AggregateEntries[0];
    assert TypesToValidator[8] == AggregateEntries[2];
    assert TypesToValidator[9] == AggregateEntries[3];
  }

  /** `VALIDATOR_MAPPING` as the source builds it has exactly the 23 codes
      as keys, and each code selects the schema of the one enumeration
      that lists it. */
  method ValidatorMapping() returns (mapping: map<string, Schema>)
    ensures mapping.Keys == Elems(AllCodes) && |mapping| == 23
    ensures forall k, t :: 0 <= k < |TypesToValidator| && t in TypesToValidator[k].types ==>
      t in mapping && mapping[t] == TypesToValidator[k].validator
  {
    mapping := BuildValidatorMapping(TypesToValidator);
    TableCodes();
    AllCodesDistinct();
    BuildKeys(TypesToValidator);
    DistinctCard(AllCodes);
    DistinctCodesDisjoint(TypesToValidator);
    DisjointBuild(TypesToValidator);
  }
}
