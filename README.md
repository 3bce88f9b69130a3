# Payment-statistics report validation, modelled in Dafny

The validator this project models takes payment-statistics report files that
financial institutions submit to the Riksbank. It accepts a file or rejects
it with the list of reasons. A file is an envelope and a list of item records.

The envelope says:
- who reports (an organisation number);
- whether the file is for test or production;
- when the file was written;
- the schema version;
- the reporting period, as a date range or a period end;
- the declared type of the items.

Each item kind is a closed record with its own rules. The kinds are:
- ATM cash transactions;
- credit transfers and instant credit transfers;
- card payments seen by card issuers and by acquirers;
- direct debits;
- four daily aggregates: e-money, money remittances, over-the-counter
  deposits and withdrawals, payment initiation;
- three payment-system operator records;
- five quantity items: cards, POS terminals, e-money terminals, ATMs,
  payment accounts.

The model follows the program's two stages:

1. **Field validation.** Each record kind is a list of declared fields. A
   field has a type, its constraints and any field validators:
   - `ge`/`le` bounds;
   - at most two decimal places;
   - a pattern;
   - a literal;
   - an enumeration;
   - a past date or date-time.

   Validating a record means three things. A missing required field is
   reported. An undeclared key is reported (`extra="forbid"`). Every
   declared field is checked, and all errors are collected
   (`Pydantic.ValidateFields`).
2. **Business rules.** When every field passes, the record's
   `validate_model` runs. Each rule is an ordered check over the typed record
   and the header context: `date_from`, `date_to` and
   `reported_payment_type`. Each violated rule adds one error. The record is
   rejected exactly when at least one rule is violated (`Collect` over
   `Rules()`, run after field validation by `TwoStage`).

Around these two stages the model has:
- the reusable field validators;
- the shared rule helpers;
- the envelope schemas;
- the enumerations of full code domains and per-kind subsets;
- the dispatch table that maps each item code to the schema validating it.

The dispatch table is built by a loop in the source, so it is built by a
`method` with loop invariants here. Everything else in the source is
declarative or pure, and is modelled with datatypes, functions and lemmas.

Modelling choices:
- **Values.** Raw input is a decoded JSON value (`Json.Value`). Money is kept
  in hundredths. Dates use the proleptic Gregorian calendar of Python's
  `datetime`, with `calendar.monthrange` and the `strptime` grammars for
  `%Y-%m-%d` and `%Y-%m-%d %H:%M:%S`.
- **Code lists.** The country, currency, SNI, merchant-category and locality
  lists are abstract sets of strings (`FieldValidationFunctions.CodeLists`).
- **Clock.** The clock behind `PastDate` and `PastDatetime` is a parameter
  (`Pydantic.Env`: `today` and `now`).

- **Documentation versus code.** Where the repository's written description and
  its code differ, the model follows the code:
  - `InitiationChannel` has the twenty codes the enumeration declares;
  - a code listed twice in the dispatch table would silently overwrite the
    earlier entry (`TypeMapping.BuildLookup`);
  - amounts accept at most two decimal places, not exactly two.

## Model

| member | source | states |
|---|---|---|
| ModelValidationFunctions.ModelValidationError | utils/model_validation_functions.py:9-13 | the error record has kind `value_error` and exactly the given location, input and message |
| ModelValidationFunctions.ValidatePaymentTypeAndReportedPaymentType | utils/model_validation_functions.py:16-28 | no error iff the item's payment type equals the header's; otherwise exactly one error, at `payment_type`, showing both codes |
| ModelValidationFunctions.ValidateTransactionClearedBetweenDates | utils/model_validation_functions.py:31-43 | no error iff `date_from <= transaction_cleared <= date_to`; the error is located at the three fields |
| ModelValidationFunctions.ValidateTransactionDayBetweenDates | utils/model_validation_functions.py:46-58 | no error iff `date_from <= transaction_day <= date_to`; the error is located at transaction_day, date_from, date_to |
| ModelValidationFunctions.ValidateTransactionTimeBetweenDates | utils/model_validation_functions.py:61-73 | no error iff the date portion of the transaction time lies in the inclusive range |
| ModelValidationFunctions.RangeIsInclusive | utils/model_validation_functions.py:37-52 | both ends of a non-empty range pass the day check and the cleared check |
| ModelValidationFunctions.ReversedRangeRejectsAll | utils/model_validation_functions.py:37-67 | when `date_from > date_to`, all three containment checks reject every date and time |
| ModelValidationFunctions.TimeComparesDatePortion | utils/model_validation_functions.py:61-73 | the time check depends only on the date portion, so every time of day on `date_to` passes |
| FieldValidationFunctions.ValidateCode | utils/field_validaton_functions.py:13-30 | shared shape of the code-list checks: accepts iff the upper-cased input is listed, returns that upper-cased code, otherwise fails with the given message |
| FieldValidationFunctions.ValidateCodeIdempotent | utils/field_validaton_functions.py:13-30 | validating an accepted code again returns the same code (also lines 66-89) |
| FieldValidationFunctions.ValidateCodeIgnoresCase | utils/field_validaton_functions.py:15-25 | a code and its upper-case form are accepted or rejected together, with the same result (also lines 68, 86) |
| FieldValidationFunctions.ValidateCurrency | utils/field_validaton_functions.py:13-20 | accepts iff the upper-cased input is a listed currency and returns it upper-cased; otherwise the source's message showing the raw input |
| FieldValidationFunctions.ValidateCountry | utils/field_validaton_functions.py:23-30 | the same for countries, with the country message |
| FieldValidationFunctions.ValidateSniCode | utils/field_validaton_functions.py:66-71 | the same for SNI codes |
| FieldValidationFunctions.ValidateMerchantCategoryCode | utils/field_validaton_functions.py:84-89 | the same for merchant category codes |
| FieldValidationFunctions.ValidateLocality | utils/field_validaton_functions.py:74-81 | the empty locality passes unchanged; any other passes iff it is listed as written, and is returned upper-cased |
| FieldValidationFunctions.LocalityNotIdempotent | utils/field_validaton_functions.py:78-79 | a locality listed in mixed case is accepted once, but its upper-cased result is rejected |
| FieldValidationFunctions.ValidateDate | utils/field_validaton_functions.py:33-45 | succeeds iff the input is a string that `strptime("%Y-%m-%d")` reads, and returns it unchanged; otherwise the message shows the input's type and value |
| FieldValidationFunctions.ValidateTimestamp | utils/field_validaton_functions.py:48-63 | None passes as None; any other input succeeds iff it is a string that `strptime("%Y-%m-%d %H:%M:%S")` reads, and is returned unchanged |
| FieldValidationFunctions.ValidateHalfYear | utils/field_validaton_functions.py:92-100 | accepts exactly four digits followed by `-06-30` or `-12-31`, with the trailing line feed `$` allows |
| FieldValidationFunctions.ValidateQuarterly | utils/field_validaton_functions.py:103-111 | accepts exactly four digits followed by one of the four quarter ends |
| FieldValidationFunctions.ValidateLastDayOfMonth | utils/field_validaton_functions.py:114-124 | accepts iff the text reads as a date whose day is the month's number of days; returns the text unchanged |
| FieldValidationFunctions.HalfYearOnDates | utils/field_validaton_functions.py:92-100 | on an ISO-formatted date, the half-year check accepts exactly June 30th and December 31st |
| FieldValidationFunctions.HalfYearOnIsoDates | utils/field_validaton_functions.py:92-100 | the same for every text that reads as an ISO date |
| FieldValidationFunctions.QuarterlyOnDates | utils/field_validaton_functions.py:103-111 | on an ISO-formatted date, the quarter check accepts exactly the last day of months 3, 6, 9 and 12 |
| FieldValidationFunctions.QuarterlyOnIsoDates | utils/field_validaton_functions.py:103-111 | the same for every text that reads as an ISO date |
| FieldValidationFunctions.QuarterlyOnMonthDay | utils/field_validaton_functions.py:105 | on an ISO date, the quarter check reads only the `MM-DD` part |
| FieldValidationFunctions.LastDayOfMonthOnDates | utils/field_validaton_functions.py:114-124 | on an ISO-formatted date, the month-end check accepts iff the day is the month's last |
| FieldValidationFunctions.FebruaryMonthEnd | utils/field_validaton_functions.py:116-119 | February 29th is a month end exactly in leap years; February 28th is one exactly in other years |
| FieldValidationFunctions.HalfYearAcceptsTrailingNewline | utils/field_validaton_functions.py:94-95 | `"2025-06-30\n"` passes the half-year check although it is not a date |
| Calendar.DaysInMonth | utils/field_validaton_functions.py:117 | `monthrange(...)[1]`: between 28 and 31; 29 iff February of a leap year; 30 iff April, June, September or November |
| Calendar.DateOrder | utils/model_validation_functions.py:37-67 | date comparison is a strict total order, and `<=` is its reflexive closure |
| Calendar.LeapDay | utils/field_validaton_functions.py:116-117 | February 29th exists exactly in leap years, and February 30th never does |
| Calendar.IsoDateOfFormat | schemas/aggregate_report_schema.py:54-59 | reading the ISO form of a date gives the date back |
| Calendar.FormatOfIsoDate | schemas/aggregate_report_schema.py:54-59 | a text that reads as an ISO date is the ISO form of that date |
| Calendar.IsoDateTimeOfFormat | schemas/base_report_schema.py:50-55 | reading the ISO form of a date-time gives it back |
| Calendar.MakeDate | utils/field_validaton_functions.py:40 | the `date` constructor succeeds exactly on a valid calendar date, and returns that date |
| Calendar.StrptimeDate | utils/field_validaton_functions.py:40 | `strptime("%Y-%m-%d")` yields only dates `datetime` can hold |
| Calendar.StrptimeTimestamp | utils/field_validaton_functions.py:58 | `strptime("%Y-%m-%d %H:%M:%S")` yields only date-times `datetime` can hold |
| Calendar.StrptimeReadsIsoDate | utils/field_validaton_functions.py:40 | `strptime` reads every strict ISO date text as the same date pydantic reads |
| Calendar.StrptimeReadsIsoDateTime | utils/field_validaton_functions.py:58 | `strptime` reads every strict ISO date-time text with a blank separator as the same date-time pydantic reads |
| Calendar.StrptimeTakesUnicodeSpace | utils/field_validaton_functions.py:58 | the blank of `%Y-%m-%d %H:%M:%S` matches any Unicode `\s` character, which gives the same date-time |
| Calendar.UnpaddedDate | utils/field_validaton_functions.py:40 | `"2024-2-29"` is read by `strptime` but is not ISO text |
| Calendar.StrptimeDateLength | utils/field_validaton_functions.py:40 | a text `strptime` reads as `%Y-%m-%d` has at most ten characters |
| Calendar.StrptimeReadsSmallYears | utils/field_validaton_functions.py:40 | a year below 1000 is read from its four zero-padded digits: `"0999-01-01"` is the year 999 |
| Calendar.LaxDate | schemas/transaction_schemas.py:129-142 | pydantic's lax date reading: a text that is not 19 characters long reads exactly as its ISO date; a date-time text reads as its date iff it is at midnight, and is inexact otherwise |
| Calendar.LaxDateOfDateTime | schemas/transaction_schemas.py:129-142 | a formatted date-time reads as its date at midnight and as inexact at any other time |
| Text.UpperChar | utils/field_validaton_functions.py:15-16 | `str.upper` of one character gives one to three characters, and on ASCII it changes exactly the letters `a` to `z` |
| Text.UpperCharIsUpper | utils/field_validaton_functions.py:15-16 | what upper-casing one character gives contains no character that upper-casing changes again |
| Text.Upper | utils/field_validaton_functions.py:15-25 | `str.upper` character by character: never shorter than the input, and longer where a character expands (also lines 68, 86) |
| Text.UpperConcat | utils/field_validaton_functions.py:15-16 | upper-casing distributes over concatenation |
| Text.UpperOfNoLower | utils/field_validaton_functions.py:15-16 | a text without lower-case letters is its own upper-case form |
| Text.UpperNormalizes | utils/field_validaton_functions.py:15-16 | an upper-cased code has no character upper-casing changes, and upper-casing it again changes nothing |
| Text.AsciiDigitsAreDecimal | utils/field_validaton_functions.py:94-95 | the ASCII digits are among the Unicode decimal digits that `\d` matches |
| FieldValidationFunctions.LocalityUpperCasesNonAscii | utils/field_validaton_functions.py:78-79 | the listed locality `Luleå` comes back as `LULEÅ` |
| FieldValidationFunctions.CurrencyFoldsLongS | utils/field_validaton_functions.py:15-16 | `ſek` upper-cases to `SEK` and so passes as that currency |
| FieldValidationFunctions.HalfYearTakesUnicodeDigits | utils/field_validaton_functions.py:94-95 | a year in Arabic-Indic digits passes the half-year check, as `\d` of `re` allows |
| Patterns.GluedNonAsciiLetterRejected | schemas/base_report_schema.py:37 | `ö556677-8899` is rejected: `ö` is a word character, so `\b` fails before the number |
| Patterns.MerchantCategoryTakesUnicodeDigits | schemas/card_transaction_schemas.py:131 | four Arabic-Indic digits match the merchant-category pattern, as the Unicode `\d` allows |
| Patterns.FindReporterId | schemas/base_report_schema.py:37 | the leftmost position where the unanchored organisation-number pattern matches, or -1 when there is none |
| Patterns.FindReporterIdIsSearch | schemas/base_report_schema.py:37 | the search finds a match exactly when the pattern occurs somewhere |
| Patterns.ReporterIdAnywhere | schemas/base_report_schema.py:37 | without anchors, an organisation number passes wherever it stands between non-word characters |
| Patterns.GluedPrefixRejected | schemas/base_report_schema.py:37 | `SE556677-8899` is rejected although it contains `556677-8899`, because `\b` fails after the prefix |
| Pydantic.CheckText | schemas/transaction_schemas.py:107-112 | a string field passes iff the input is a string that matches its pattern; it keeps the after-validator's result; otherwise one error at the field (also lines 145-149) |
| Pydantic.CheckInteger | schemas/aggregate_schemas.py:90-95 | an integer field passes iff the number is integral and at least `ge`; it keeps that number |
| Pydantic.CheckMoney | schemas/transaction_schemas.py:99-105 | a decimal field passes iff the number has at most two places and lies within `ge`/`le`; it keeps the hundredths |
| Pydantic.CheckPastDate | schemas/aggregate_schemas.py:83-88 | a date passes iff its before-validator (if any) accepts it, the text reads as a date in pydantic's lax mode, and it is before today (also lines 120-138) |
| Pydantic.MidnightDateTimeGivesDate | schemas/aggregate_schemas.py:120-132 | without a before-validator, a date-time text at midnight passes iff its date is before today and keeps that date; at any other time it is refused as `date_from_datetime_inexact` |
| Pydantic.PastDateReadsIso | schemas/aggregate_report_schema.py:54-59 | with a before-validator that returns its input, a date passes iff that validator accepts the text and the text reads in lax mode as a date before today (also lines 75-79) |
| Pydantic.CheckPastDatetime | schemas/base_report_schema.py:50-73 | a date-time passes iff it is read, through `validate_timestamp` or the field's own parser, as a moment before now |
| Pydantic.CheckItems | schemas/base_report_schema.py:62-82 | `items` passes iff it is a non-empty list of objects; an empty list gets the source's own message |
| Pydantic.CheckField | schemas/transaction_schemas.py:121-127 | a missing required field is `missing`; a missing or null optional field is None; anything else goes through the field's check |
| Pydantic.FieldErrorsEmpty | schemas/transaction_schemas.py:85 | no field errors exactly when every declared field's check passes |
| Pydantic.FieldValues | schemas/transaction_schemas.py:85-143 | the typed record has exactly the declared names as keys |
| Pydantic.ExtraErrorsEmpty | schemas/transaction_schemas.py:85 | `extra="forbid"`: no extra errors exactly when every key is declared |
| Pydantic.ExtraKeyInErrors | schemas/transaction_schemas.py:85 | `extra="forbid"`: each undeclared key gets its own `extra_forbidden` error |
| Pydantic.ValidateFieldsAccepts | schemas/transaction_schemas.py:85 | a record validates exactly when the input is an object, every declared field passes and no key is undeclared |
| Pydantic.ExtraKeyReported | schemas/base_report_schema.py:29 | every undeclared key is reported, at its own name, with its value |
| Pydantic.MissingFieldReported | schemas/transaction_schemas.py:92-97 | a missing required field is reported as `missing` at its name |
| Pydantic.FailedFieldReported | schemas/base_report_schema.py:75-82 | every error of a failing field is among the record's errors |
| Pydantic.ValidFieldsAreChecks | schemas/transaction_schemas.py:85-143 | a valid record keeps, under each declared name, what that field's check gave |
| Pydantic.ValidStrEnum | schemas/transaction_schemas.py:121-127 | a valid record keeps a required string enumeration field, and whatever it keeps is one of the enumeration's codes |
| Pydantic.ValidIntEnum | schemas/transaction_schemas.py:114-119 | the same for an integer enumeration field, such as role_in_transaction |
| Pydantic.IntEnumTakesWholeNumbers | schemas/transaction_schemas.py:114-119 | an integer enumeration takes a member written as `2` or as `2.0`, keeps it as the integer 2, and refuses `2.5` |
| Pydantic.ValidInteger | schemas/aggregate_schemas.py:90-95 | a valid record keeps a required integer at or above its bound |
| Pydantic.ValidMoney | schemas/payment_system_operators_schemas.py:138-145 | a valid record keeps a required amount in hundredths within its bounds |
| Pydantic.ValidChecked | schemas/transaction_schemas.py:145-149 | a valid record keeps what the field's after-validator returned on the raw string |
| Pydantic.ValidPattern | schemas/card_transaction_schemas.py:129-135 | a valid record keeps a string that the field's pattern matches |
| Pydantic.ValidLiteral | schemas/transaction_report_schema.py:48-53 | a valid record keeps exactly the literal's text |
| Pydantic.ValidPastDate | schemas/transaction_report_schema.py:55-86 | a valid record keeps a date before today; the raw text passed the before-validator and reads in lax mode as that date |
| Pydantic.ValidPastDatetime | schemas/base_report_schema.py:50-55 | a valid record keeps a moment before now |
| Pydantic.ValidItems | schemas/base_report_schema.py:62-67 | a valid record keeps a non-empty list of objects |
| Pydantic.ParseWith | schemas/transaction_schemas.py:85 | the typed record exists iff field validation passes, and it is built from the validated values; otherwise the errors are the field errors |
| Pydantic.When | schemas/transaction_schemas.py:233-240 | one rule: an error exactly when it is violated, namely the rule's own error |
| Pydantic.CollectEmpty | schemas/transaction_schemas.py:281-284 | no errors are collected exactly when no rule is violated |
| Pydantic.CollectSplit | schemas/transaction_schemas.py:231-284 | rules checked in two groups give no errors exactly when neither group gives any |
| Pydantic.CollectMember | schemas/transaction_schemas.py:231-282 | an error is collected exactly when some violated rule produces it |
| Pydantic.CollectCount | schemas/transaction_schemas.py:231-282 | one error is collected per violated rule |
| Pydantic.TwoStage | schemas/transaction_schemas.py:228-229 | the model validator runs only on a record whose fields all passed; field errors are returned unchanged; a record with fields passing is valid iff the rules give no error |
| Pydantic.CorrectedNullIsNone | schemas/transaction_schemas.py:323-328 | where the source aborts on an explicit null of an optional field, the corrected check reads it as None |
| TransactionSchemas.ValidatedBaseTransaction | schemas/transaction_schemas.py:85-149 | a record starting with the base fields keeps a non-negative value, a listed upper-case currency, a role of 1 or 2 and, when reported, a transaction payment type |
| TransactionSchemas.ValidatedValue | schemas/transaction_schemas.py:99-105 | the transaction value of a valid record is not negative |
| TransactionSchemas.ValidatedCurrency | schemas/transaction_schemas.py:107-112 | the transaction currency of a valid record is a listed currency without lower-case letters (also lines 145-149) |
| TransactionSchemas.ValidatedRole | schemas/transaction_schemas.py:114-119 | the role of a valid record is in RoleInTransaction |
| TransactionSchemas.ValidatedReportedType | schemas/transaction_schemas.py:121-127 | a reported payment type kept by a valid record is in PaymentTypeTransactions |
| TransactionSchemas.CashTransactionsATMOwners.RulesAcceptExactly | schemas/transaction_schemas.py:228-284 | the six ATM rules give no error exactly when the record is acceptable (locality iff SE, CW0 from the payer, CD0 from the payee, types agree, day in period), one error per violated rule |
| TransactionSchemas.CashTransactionsATMOwnersPipeline | schemas/transaction_schemas.py:152-284 | an ATM record validates exactly when its fields pass and it is acceptable; field errors suppress the rules |
| TransactionSchemas.CreditTransfer.RulesAcceptExactly | schemas/transaction_schemas.py:369-487 | the eleven credit-transfer rules give no error exactly when the record is acceptable, one error per violated rule |
| TransactionSchemas.CreditTransfer.SniCodeByRole | schemas/transaction_schemas.py:440-476 | in an acceptable transfer, sni_code is present for a payee's PSP with a non-MFI user, and is not reported otherwise |
| TransactionSchemas.CreditTransferPipeline | schemas/transaction_schemas.py:287-487 | a credit transfer validates exactly when its fields pass and it is acceptable |
| TransactionSchemas.ParseTransactionTime | schemas/transaction_schemas.py:586-598 | transaction_time passes iff it is a string `strptime` reads as a date-time, which is what it keeps; a string `strptime` rejects fails with the source's message. A non-string gets that message too in this corrected check, where the source raises `TypeError` (see Findings) |
| TransactionSchemas.NonStringTransactionTimeAsWritten | schemas/transaction_schemas.py:594-595 | a number or null transaction_time aborts the instant transfer as written, while the corrected check reports the format message |
| TransactionSchemas.TransactionTimeTakesNoBreakSpace | schemas/transaction_schemas.py:594 | a no-break space between date and time is read as the format's blank |
| TransactionSchemas.InstantCreditTransfer.RulesAcceptExactly | schemas/transaction_schemas.py:600-754 | the fifteen instant-transfer rules give no error exactly when the record is acceptable, one error per violated rule |
| TransactionSchemas.InstantCreditTransfer.AccountRulesAccept | schemas/transaction_schemas.py:605-669 | the first seven rules pass exactly when channel 2220 is not remote, remote-only channels are remote, SCT Inst is in euro, the payer reports account currency and value, and the payee reports neither |
| TransactionSchemas.InstantCreditTransfer.InitiationRulesAccept | schemas/transaction_schemas.py:671-750 | the remaining eight rules pass exactly when the payer reports channel and remote initiation but no SNI code, the payee reports neither, an SNI code is present exactly for a payee's non-MFI user, and the time lies in the period |
| TransactionSchemas.ZeroAccountValue | schemas/transaction_schemas.py:653-669 | an account value of zero is neither missing for the payer nor reported for the payee |
| TransactionSchemas.InstantCreditTransferPipeline | schemas/transaction_schemas.py:490-754 | an instant credit transfer validates exactly when its fields pass and it is acceptable |
| TransactionSchemas.RemoteOnlyChannelsAreTransferChannels | schemas/transaction_schemas.py:383-394 | the remote-only channels, and 2220, are channels of both transfer kinds (also lines 614-625) |
| TransactionSchemas.EuroSchemes | schemas/transaction_schemas.py:395-402 | acceptable SEPA and SCT Inst transfers are in euro (also lines 626-633) |
| TransactionSchemas.SniInputAsWritten | schemas/transaction_schemas.py:466-476 | the SNI errors show remote_initiation as their input while being located at sni_code |
| CardTransactionSchemas.CardRules.RulesAcceptExactly | schemas/card_transaction_schemas.py:251-341 | the card rules shared by issuer and acquirer give no error exactly when the record is acceptable, one error per violated rule (also lines 400-490) |
| CardTransactionSchemas.CardRules.NonElectronicRemoteRejected | schemas/card_transaction_schemas.py:277-293 | a non-electronic card payment initiated remotely is always rejected |
| CardTransactionSchemas.ValidateIssuerCounterpartyCountry | schemas/card_transaction_schemas.py:240-249 | the issuer's counterparty country passes iff it is empty or its upper-case form is listed; it returns the upper-case form |
| CardTransactionSchemas.IssuerCountryExtendsCountry | schemas/card_transaction_schemas.py:240-249 | the issuer check agrees with `validate_country` on non-empty input and also lets the empty string through |
| CardTransactionSchemas.CardPaymentIssuerPipeline | schemas/card_transaction_schemas.py:162-341 | an issuer record validates exactly when its fields pass and its card rules do |
| CardTransactionSchemas.ValidatedIssuerCounterpartyCountry | schemas/card_transaction_schemas.py:184-190 | a kept issuer counterparty country is empty or a listed country without lower-case letters (also lines 240-249) |
| CardTransactionSchemas.CardPaymentAcquirerPipeline | schemas/card_transaction_schemas.py:344-490 | an acquirer record validates exactly when its fields pass and its card rules do |
| CardTransactionSchemas.TerminalChannelsAreChannels | schemas/card_transaction_schemas.py:256-275 | the terminal and remote-only channels of the rules are channels of the kinds that use them (also lines 405-424) |
| CardTransactionSchemas.IssuerTerminalRuleIsStricter | schemas/card_transaction_schemas.py:256 | where the issuer's terminal rule passes, the acquirer's would too (also line 405) |
| AggregateSchemas.ValidatedBaseAggregate | schemas/aggregate_schemas.py:70-144 | a record starting with the base aggregate fields keeps at least one transaction, a non-negative value, a listed upper-case currency and, when reported, an aggregate type |
| AggregateSchemas.ValidatedNumberOf | schemas/aggregate_schemas.py:90-95 | number_of of a valid aggregate is at least one |
| AggregateSchemas.ValidatedValue | schemas/aggregate_schemas.py:97-103 | transaction_value of a valid aggregate is not negative |
| AggregateSchemas.ValidatedCurrency | schemas/aggregate_schemas.py:105-110 | transaction_currency of a valid aggregate is a listed currency without lower-case letters (also lines 140-144) |
| AggregateSchemas.ValidatedReportedType | schemas/aggregate_schemas.py:112-118 | a kept reported payment type is in PaymentTypeAggregates |
| AggregateSchemas.SingleTypeNeedsNoComparison | schemas/aggregate_schemas.py:203-220 | for a schema whose enumeration has a single code, a header type that the dispatch table sends to that schema and a payment type from that enumeration always agree, so the comparison the source leaves out could never fail |
| AggregateSchemas.ValidatedPaymentType | schemas/aggregate_schemas.py:155-160 | a validated aggregate's payment type is one of its enumeration's codes |
| AggregateSchemas.EMoneyNeedsNoComparison | schemas/aggregate_schemas.py:208-209 | a valid e-money item reached through the dispatch table always carries the header's payment type |
| AggregateSchemas.MoneyRemittancesNeedNoComparison | schemas/aggregate_schemas.py:290-291 | the same for money remittances |
| AggregateSchemas.PaymentInitiationServicesNeedNoComparison | schemas/aggregate_schemas.py:417-418 | the same for payment initiation services |
| AggregateSchemas.EMoney.RulesAcceptExactly | schemas/aggregate_schemas.py:203-220 | the e-money rule gives no error exactly when the day is in the period |
| AggregateSchemas.EMoneyPipeline | schemas/aggregate_schemas.py:147-220 | an e-money aggregate validates exactly when its fields pass and its day is in the period |
| AggregateSchemas.MoneyRemittances.RulesAcceptExactly | schemas/aggregate_schemas.py:285-302 | the remittance rule gives no error exactly when the day is in the period |
| AggregateSchemas.MoneyRemittancesPipeline | schemas/aggregate_schemas.py:223-302 | a remittance aggregate validates exactly when its fields pass and its day is in the period |
| AggregateSchemas.OTC.RulesAcceptExactly | schemas/aggregate_schemas.py:327-347 | the OTC rules give no error exactly when the types agree and the day is in the period, one error per violated rule |
| AggregateSchemas.OTCPipeline | schemas/aggregate_schemas.py:305-347 | an OTC aggregate validates exactly when its fields pass and it is acceptable |
| AggregateSchemas.PaymentInitiationServices.RulesAcceptExactly | schemas/aggregate_schemas.py:412-429 | the payment-initiation rule gives no error exactly when the day is in the period |
| AggregateSchemas.PaymentInitiationServicesPipeline | schemas/aggregate_schemas.py:350-429 | a payment-initiation aggregate validates exactly when its fields pass and its day is in the period |
| QuantityItemsSchemas.ValidatedNumberOf | schemas/quantity_items_schemas.py:66-71 | a valid quantity item counts zero or more |
| QuantityItemsSchemas.ValidatedMerchantLocation | schemas/quantity_items_schemas.py:82-93 | a kept merchant location is a listed country without lower-case letters |
| QuantityItemsSchemas.Cards.CheckAcceptsExactly | schemas/quantity_items_schemas.py:155-172 | the card validator passes exactly when an e-money function is reported for CF3, CF5 and CF6 and not for CF1, CF2 and CF4; at most one error, the missing case first |
| QuantityItemsSchemas.Cards.EMoneyFunctionIffEMoneyCard | schemas/quantity_items_schemas.py:153-170 | on the six card functions, an e-money function is reported iff the card has an e-money function |
| QuantityItemsSchemas.CardsPipeline | schemas/quantity_items_schemas.py:96-172 | a card count validates exactly when its fields pass and the e-money rule holds; a rule failure is one error |
| QuantityItemsSchemas.CardFunctionsSplit | schemas/quantity_items_schemas.py:162-167 | the two lists of the rule split the card functions |
| QuantityItemsSchemas.ValidatedATMFunction | schemas/quantity_items_schemas.py:243-248 | an ATM count keeps an ATM terminal function |
| QuantityItemsSchemas.ValidatedPosFunction | schemas/quantity_items_schemas.py:190-195 | a POS count keeps a POS terminal function |
| QuantityItemsSchemas.ValidatedEMoneyTerminalFunction | schemas/quantity_items_schemas.py:220-225 | an e-money terminal count keeps an e-money terminal function |
| QuantityItemsSchemas.ValidatedTypeOfAccount | schemas/quantity_items_schemas.py:280-285 | a payment-account count always keeps a listed type of account |
| PaymentSystemOperatorsSchemas.ValidatedTransactionAmounts | schemas/payment_system_operators_schemas.py:85-98 | a valid record counts at least one transaction of a non-negative value |
| PaymentSystemOperatorsSchemas.ValidatedTransactionsMetric | schemas/payment_system_operators_schemas.py:71-76 | a transactions record has the metric `T` |
| PaymentSystemOperatorsSchemas.ValidatedCounterpartyCountry | schemas/payment_system_operators_schemas.py:100-113 | a kept counterparty country is a listed country without lower-case letters |
| PaymentSystemOperatorsSchemas.ValidatedConcentrationRatio | schemas/payment_system_operators_schemas.py:124-145 | a concentration ratio lies between 0.00 and 1.00 and has the metric `C` |
| PaymentSystemOperatorsSchemas.ValidatedParticipantsMetric | schemas/payment_system_operators_schemas.py:156-161 | a participants record has the metric `P` |
| PaymentSystemOperatorsSchemas.ValidatedParticipants | schemas/payment_system_operators_schemas.py:163-168 | the number of participants is not negative |
| DirectDebitsSchema.ValidatedDirectDebits | schemas/direct_debits_schema.py:36-70 | a valid direct-debit record counts at least one debit of a non-negative value, through one of the direct-debit channels 2100, 2200 or 2270 |
| DirectDebitsSchema.ValidatedCurrency | schemas/direct_debits_schema.py:51-56 | its currency is a listed currency without lower-case letters (also lines 72-76) |
| BaseReportSchema.ValidatedReporterId | schemas/base_report_schema.py:35-41 | a valid envelope's reporter id contains an organisation number |
| BaseReportSchema.ValidatedEnvironment | schemas/base_report_schema.py:43-48 | a valid envelope is for test or production |
| BaseReportSchema.ValidatedTimeAndItems | schemas/base_report_schema.py:50-82 | a valid envelope was written before now and carries a non-empty list of objects |
| BaseReportSchema.NonListItemsAsWritten | schemas/base_report_schema.py:77-83 | a null or numeric `items` aborts as written in `len()`, while the corrected check reports `list_type` |
| BaseReportSchema.EmptyItemsRejected | schemas/base_report_schema.py:75-82 | an envelope with an empty item list is rejected with `There are no items in the report.`, whatever else it holds |
| TransactionReportSchema.ValidatedHeader | schemas/transaction_report_schema.py:48-53 | a valid header has schema version 1.0 and a transaction payment type (also lines 69-74) |
| TransactionReportSchema.ValidatedDates | schemas/transaction_report_schema.py:55-86 | both period ends were written as `%Y-%m-%d` dates and lie before today |
| AggregateReportSchema.ValidatedHeader | schemas/aggregate_report_schema.py:47-52 | a valid header has schema version 1.0 and an aggregate payment type (also lines 68-73) |
| AggregateReportSchema.ValidatedDates | schemas/aggregate_report_schema.py:54-85 | both period ends were written as `%Y-%m-%d` dates and lie before today |
| DirectDebitsReportSchema.ValidateMonthPeriod | schemas/direct_debits_report_schema.py:61-66 | the period passes iff it reads as a date that is its month's last day; the format error comes first |
| DirectDebitsReportSchema.MonthPeriodOnIsoDates | schemas/direct_debits_report_schema.py:61-66 | on an ISO date, the period check accepts exactly a month's last day |
| DirectDebitsReportSchema.ValidatedHeader | schemas/direct_debits_report_schema.py:40-52 | a valid header has schema version 1.0 and reports DD |
| DirectDebitsReportSchema.ValidatedPeriod | schemas/direct_debits_report_schema.py:54-66 | the period is the last day of a month before today |
| PaymentSystemOperatorsReportSchema.ValidatedHeader | schemas/payment_system_operators_report_schema.py:33-52 | a valid header has schema version 1.0 and a payment-system metric |
| PaymentSystemOperatorsReportSchema.ValidatedPeriod | schemas/payment_system_operators_report_schema.py:40-58 | the period is the last day of a quarter before today |
| QuantityItemsReportSchema.ValidatedHeader | schemas/quantity_items_report_schema.py:44-63 | a valid header has schema version 1.0 and a quantity item |
| QuantityItemsReportSchema.ValidatedPeriod | schemas/quantity_items_report_schema.py:51-69 | the period is June 30th or December 31st before today |
| TypeMapping.BuildValidatorMapping | utils/type_mapping.py:66 | the nested loop builds exactly the table that inserting each entry's codes in order gives (also lines 93-95) |
| TypeMapping.InsertFacts | utils/type_mapping.py:94-95 | one pass of the inner loop adds the entry's codes as keys, maps each of them to the entry's validator and leaves every other key as it was |
| TypeMapping.BuildKeys | utils/type_mapping.py:93-95 | the table's keys are exactly the codes of the entries |
| TypeMapping.BuildLookup | utils/type_mapping.py:93-95 | a code maps to the validator of the last entry that lists it |
| TypeMapping.DisjointBuild | utils/type_mapping.py:93-95 | when no two entries share a code, each code maps to its own entry's validator |
| TypeMapping.TableCodes | utils/type_mapping.py:67-91 | the table's eighteen enumerations list exactly the 23 codes, in table order |
| TypeMapping.TransactionCodes | utils/type_mapping.py:68-73 | the transaction enumerations visit the nine transaction codes |
| TypeMapping.OtherGroupCodes | utils/type_mapping.py:74-91 | the codes of the direct-debit, aggregate, operator and quantity-item groups |
| TypeMapping.AllCodesDistinct | utils/type_mapping.py:67-91 | no code is listed twice, so no entry overwrites another |
| TypeMapping.DistinctCodesDisjoint | utils/type_mapping.py:67-95 | when no code is listed twice in the table, no two entries share a code |
| TypeMapping.EntryOfCode | utils/type_mapping.py:93-95 | every code the loop visits belongs to one of the entries |
| TypeMapping.ValidatorsDistinct | utils/type_mapping.py:67-91 | the eighteen entries name eighteen schemas, each at its own place |
| TypeMapping.SelectedCodeIsOwn | utils/type_mapping.py:66-95 | the table sends a code to a schema only when that schema's own enumeration lists the code |
| TypeMapping.SingleCodeEntries | utils/type_mapping.py:77-80 | the e-money, money-remittance and payment-initiation entries with their one-code enumerations |
| TypeMapping.ValidatorMapping | utils/type_mapping.py:66-95 | `VALIDATOR_MAPPING` has exactly the 23 codes, and each code selects the validator of its own enumeration |
| FullEnums.PaymentTypeCodes | enums/full_enums.py:70-101 | fifteen payment types, none listed twice |
| FullEnums.InitiationChannelCodes | enums/full_enums.py:189-230 | twenty initiation channels, strictly increasing from 1000 to 5000 |
| FullEnums.PaymentSchemeCodes | enums/full_enums.py:133-170 | eighteen payment schemes: seven card schemes, then eleven credit-transfer schemes |
| TransactionEnums.ScopedWithinFull | enums/transaction_enums.py:14-261 | each scoped set lies inside its full domain |
| TransactionEnums.PaymentTypeTransactionsIsUnion | enums/transaction_enums.py:14-71 | the header's nine distinct transaction types are exactly the five kinds' types together |
| TransactionEnums.IssuerChannelsAddAtm | enums/transaction_enums.py:82-113 | issuers accept the acquirer channels and ATM 2221 as well |
| TransactionEnums.InstantChannelsDropPaper | enums/transaction_enums.py:116-159 | instant transfers accept the credit-transfer channels except paper-based 1200 |
| TransactionEnums.CardTypesDisjoint | enums/transaction_enums.py:244-261 | issuer and acquirer card types share nothing |
| TransactionEnums.CardSchemes | enums/transaction_enums.py:162-209 | ATM owners and acquirers accept the same schemes; issuers accept those without CUP and JCB |
| TransactionEnums.TransferSchemesShareOtho | enums/transaction_enums.py:212-241 | the two transfer kinds share only CTS_OTHO |
| AggregatesEnums.PaymentTypeAggregatesIsUnion | enums/aggregates_enums.py:12-49 | the header's aggregate types are the four kinds' types together, all of them payment types; OTC has CWOTC and CDOTC |
| AggregatesEnums.EMoneyScopes | enums/aggregates_enums.py:52-79 | the e-money channels, within the full domain; the e-money and OTC users are all users but MFI |
| DirectDebitsEnums.DirectDebitScopes | enums/direct_debits_enums.py:11-24 | direct debits are DD through 2100, 2200 or 2270, and DD is neither a transaction nor an aggregate type |
| PaymentSystemOperatorsEnums.MetricPartition | enums/payment_system_operators_enums.py:8-33 | the three metric sets are pairwise disjoint singletons covering PaymentSystemMetric; the operators' payment types are DD, CT0 and CT1 |
| QuantityItemsEnums.QuantityItemsPartition | enums/quantity_items_enums.py:14-41 | the five singleton sets split the five quantity items |
| QuantityItemsEnums.CardSchemes | enums/quantity_items_enums.py:44-55 | the five card schemes of card counts, all of them payment schemes |
| QuantityItemsEnums.TerminalScopes | enums/quantity_items_enums.py:84-121 | the ATM terminal functions are 5 to 11; POS and ATM functions are disjoint; POS, e-money-terminal and ATM functions together are all terminal functions |
| FieldValidationFunctions.BeforeAsWritten | utils/field_validaton_functions.py:33-63 | as written, a before-validator given a non-string raises something other than a `ValueError` |
| FieldValidationFunctions.ValidateDateAsWritten | utils/field_validaton_functions.py:33-45 | `validate_date` as written: a non-string input ends in `TypeError`, not in a validation error |
| FieldValidationFunctions.ValidateTimestampAsWritten | utils/field_validaton_functions.py:48-63 | `validate_timestamp` as written: an input that is neither a string nor None ends in `TypeError` |
| Pydantic.CheckFieldAsWritten | schemas/transaction_schemas.py:357-361 | a field's validation as written aborts with a non-validation exception exactly where the source crashes; elsewhere it agrees with the corrected check (also lines 580-584) |
| TransactionSchemas.NullSniCodeAsWritten | schemas/transaction_schemas.py:323-328 | an explicit null sni_code aborts the credit transfer as written, while the corrected check reads None (also lines 357-361) |
| TransactionSchemas.NullAccountCurrencyAsWritten | schemas/transaction_schemas.py:526-531 | an explicit null account_currency aborts the instant transfer as written, while the corrected check reads None (also lines 580-584) |
| CardTransactionSchemas.NullIssuerCountryAsWritten | schemas/card_transaction_schemas.py:184-190 | an explicit null counterparty_country aborts the issuer record as written, while the corrected check reads None (also lines 240-245) |

## Left out

- Pydantic: only the behaviour the schemas rely on is modelled. JSON coercion is reduced to a few cases:
  - integers from integral numbers;
  - decimals from numbers;
  - strings only from strings.
- Pydantic: error texts produced by pydantic itself (enum, literal, type and date errors) are approximations. The messages the source writes are exact.
- Pydantic: `ValidationError.from_exception_data` is not modelled. A rejected record is the list of its error records.
- Business rules: every `validate_model` is modelled on values, as `Collect` over an ordered rule table. It is not a `method` that appends to an `errors` list step by step. The rule order, one error per violated rule and the reject-iff-non-empty outcome are kept as lemmas.
- Code lists: `codelists/codelists.py` comes from an external library, and the SNI, merchant-category and locality modules are not part of this model. All five lists are abstract sets of strings.
- Metadata: `enums/field_metadata_enums.py`, `codelists/codelists_descriptions.py` and the `description`/`examples`/`json_schema_extra` arguments are documentation only.
- `utils/types.py`: only `NewType` aliases.
- The clock: "today" and "now" are parameters of every validation.
- `account_value: float` of the instant credit transfer is kept as the decimal it was written as, not as a binary float. The rules test only its presence and whether it is zero. The error inputs that show it (schemas/transaction_schemas.py:653-669) render it in fixed point with every written digit. Python's `str(float)` differs at large and small magnitudes (`1e+16`, `1e-05`) and rounds to 17 significant digits (`0.12345678901234567890` gives `0.12345678901234568`).
- Text.Upper: `str.upper` is modelled on ASCII, Latin-1, Latin Extended-A and the Latin ligatures U+FB00 to U+FB06, Python's tables there being followed exactly. Other scripts (Greek, Cyrillic and the rest) are kept unchanged.
- Text.IsWordChar: the Unicode `\w` of the `regex` crate is modelled for characters below U+0800. Word characters above that are treated as non-word characters.
- Patterns.FindReporterId: it inherits that limit: a letter above U+07FF glued to the number is taken as a boundary, where the real pattern sees none.
- Patterns.ReporterIdAnywhere: the non-word neighbours it asks for are those of `Text.IsWordChar`, with the same limit.
- FieldValidationFunctions.ValidateCode: the upper-casing it compares and returns is that of `Text.Upper`, with the coverage stated there.
- FieldValidationFunctions.ValidateCurrency: the upper-casing it compares is that of `Text.Upper`, with the coverage stated there.
- FieldValidationFunctions.ValidateCountry: the same upper-casing and coverage.
- FieldValidationFunctions.ValidateSniCode: the same upper-casing and coverage.
- FieldValidationFunctions.ValidateMerchantCategoryCode: the same upper-casing and coverage.
- FieldValidationFunctions.ValidateLocality: it returns the upper-case form of `Text.Upper`, with the coverage stated there.
- CardTransactionSchemas.ValidateIssuerCounterpartyCountry: the same upper-casing and coverage.
- Pydantic.CrashAsWritten: for a date field's before-validator it gives only the exception type `TypeError`. The model does not tell a validator built on `strptime` (`strptime() argument 1 must be str`) from one built on `re.match` (`expected string or bytes-like object`).
- Dates: `strptime` tokens are modelled with ASCII digits. Python's `strptime` patterns use `\d` in `%Y` and after a fixed first digit in `%d`, `%H`, `%M` and `%S`, and `\d` there matches any Unicode decimal digit. Locale effects are not modelled.
- Pydantic.CheckPastDate: pydantic's lax date reading is modelled for `YYYY-MM-DD` texts and for `YYYY-MM-DD HH:MM:SS` texts (separator `T`, `t`, blank or `_`), where a date-time at exactly midnight gives its date. Unix timestamps are not modelled: pydantic reads a JSON number such as `1704067200`, or a digit string such as `"1704067200"`, at exact midnight as its date, where the model refuses it (`date_type` or `date_from_datetime_parsing`). Date-time texts with fractional seconds, a time zone or no seconds are not modelled either. Only the optional item fields `date_from` and `date_to` (schemas/transaction_schemas.py:129-142, schemas/aggregate_schemas.py:120-132) are affected: they have no before-validator, and every other date field's before-validator lets only `%Y-%m-%d` texts through.
- Report dates: the headers never compare `date_from` with `date_to`. The model has no such check either, and the item rules that use the range are the only place it matters (`ModelValidationFunctions.ReversedRangeRejectsAll`).
- Dispatch: the caller that applies `VALIDATOR_MAPPING` to the items and copies header fields into them is not part of this model. So the header's declared type is not linked to the items, except through each item's own `reported_payment_type`.
- TypeMapping.ValidatorMapping: the table's keys are the code strings. The order of `dict` iteration is modelled as the table's declaration order.
- Pydantic.CheckItems: the corrected check reports a `list_type` error where the source's `len()` raises `TypeError` on a non-sized input. That case is listed under Findings through `Pydantic.CheckFieldAsWritten`.

## Findings

| source | as written | input that shows it | evidently intended | confidence | as-written member | corrected member |
|---|---|---|---|---|---|---|
| utils/field_validaton_functions.py:33-63 | `validate_date` and `validate_timestamp` run as before-validators on the raw JSON value and pass it straight to `strptime` | `"date_from": 20250101` in a report header, or `"report_datetime": 5` | a non-string date gets a validation error saying the date has the wrong format | not executed | FieldValidationFunctions.ValidateDateAsWritten | FieldValidationFunctions.ValidateDate |
| utils/field_validaton_functions.py:48-63 | the same for timestamps: only None is passed through | `"report_datetime": 5` | a validation error for a non-string timestamp | not executed | FieldValidationFunctions.ValidateTimestampAsWritten | FieldValidationFunctions.ValidateTimestamp |
| schemas/transaction_schemas.py:357-361 | the after-validator of the optional `sni_code` calls `.upper()` on its value, which is None for an explicit null | a credit transfer with `"sni_code": null` | an explicit null is treated like an absent code and left to the SNI rules | not executed | TransactionSchemas.NullSniCodeAsWritten | Pydantic.CorrectedNullIsNone |
| schemas/transaction_schemas.py:580-584 | the same for the optional `account_currency` of an instant credit transfer | an instant credit transfer from the payee's PSP with `"account_currency": null` | null is read as not reported | not executed | TransactionSchemas.NullAccountCurrencyAsWritten | Pydantic.CorrectedNullIsNone |
| schemas/card_transaction_schemas.py:240-245 | the issuer's country validator lets a falsy value through its test and then calls `.upper()` on it, so None fails | a card-issuer record with `"counterparty_country": null` | null is returned as None, as the docstring "None or alpha_2" says | not executed | CardTransactionSchemas.NullIssuerCountryAsWritten | Pydantic.CorrectedNullIsNone |
| schemas/transaction_schemas.py:586-598 | the before-validator of `transaction_time` passes a non-string straight to `strptime`, and `except ValueError` does not catch the `TypeError` this raises | an instant credit transfer with `"transaction_time": 5` or `"transaction_time": null` | a validation error saying the time has the wrong format | not executed | Pydantic.CheckFieldAsWritten | TransactionSchemas.ParseTransactionTime |
| schemas/base_report_schema.py:77-83 | the before-validator of `items` calls `len()` on the raw value, which raises `TypeError` on a null or a number | a report with `"items": null` or `"items": 5` | a validation error saying `items` is not a list | not executed | Pydantic.CheckFieldAsWritten | Pydantic.CheckItems |
