/** The checks the model validators share: the header/item payment-type
    comparison and the inclusive date-range containment of a record's day,
    clearing date or transaction time. Each gives the error record to
    append, or nothing. */
module ModelValidationFunctions {
  import opened Wrappers
  import opened Calendar
  import opened Json
  import opened Pydantic

  const ValueErrorKind: string := "value_error"

  /** The messages and locations of the shared checks. */
  const PaymentTypeMismatchMessage: string := "Filed payment_type is not the same as reported_payment_type."
  const ClearedOutsidePeriodMessage: string := "Filed transaction_cleared is not between date_from and date_to."
  const DayOutsidePeriodMessage: string := "Filed transaction_day is not between date_from and date_to."
  const TimeOutsidePeriodMessage: string := "Filed transaction_time is not between date_from and date_to."
  const ClearedPeriodLoc: seq<string> := ["transaction_cleared", "date_from", "date_to"]
  const DayPeriodLoc: seq<string> := ["transaction_day", "date_from", "date_to"]
  const TimePeriodLoc: seq<string> := ["transaction_time", "date_from", "date_to"]
  const PaymentTypeLoc: seq<string> := ["payment_type"]

  /** The error record of a violated model rule: a `value_error` with the
      given location, input and message. */
  function ModelValidationError(loc: seq<string>, input: Value, msg: string): (e: ErrorDetails)
    ensures e.kind == ValueErrorKind && e.loc == loc && e.input == input && e.msg == msg
  {
    ErrorDetails(ValueErrorKind, loc, input, msg)
  }

  function ValidatePaymentTypeAndReportedPaymentType(paymentType: string, reportedPaymentType: string): (r: Option<ErrorDetails>)
    ensures r.None? <==> paymentType == reportedPaymentType
    ensures r.Some? ==> r.value == ModelValidationError(PaymentTypeLoc, Str(reportedPaymentType + ", " + paymentType),
                                                        PaymentTypeMismatchMessage)
  {
    if reportedPaymentType != paymentType then
      Some(ModelValidationError(PaymentTypeLoc, Str(reportedPaymentType + ", " + paymentType),
                                PaymentTypeMismatchMessage))
    else None
  }

  /** `date_from <= d <= date_to`. */
  predicate Within(d: Date, dateFrom: Date, dateTo: Date)
  {
    DateAtMost(dateFrom, d) && DateAtMost(d, dateTo)
  }

  function RangeText(first: string, dateFrom: Day, dateTo: Day): string
  {
    first + ", " + FormatDate(dateFrom) + ", " + FormatDate(dateTo)
  }

  function ValidateTransactionClearedBetweenDates(transactionCleared: Day, dateFrom: Day, dateTo: Day): (r: Option<ErrorDetails>)
    ensures r.None? <==> Within(transactionCleared, dateFrom, dateTo)
    ensures r.Some? ==> r.value.kind == ValueErrorKind && r.value.loc == ClearedPeriodLoc
                        && r.value.msg == ClearedOutsidePeriodMessage
                        && r.value.input == Str(RangeText(FormatDate(transactionCleared), dateFrom, dateTo))
  {
    if !Within(transactionCleared, dateFrom, dateTo) then
      Some(ModelValidationError(ClearedPeriodLoc,
                                Str(RangeText(FormatDate(transactionCleared), dateFrom, dateTo)),
                                ClearedOutsidePeriodMessage))
    else None
  }

  function ValidateTransactionDayBetweenDates(transactionDay: Day, dateFrom: Day, dateTo: Day): (r: Option<ErrorDetails>)
    ensures r.None? <==> Within(transactionDay, dateFrom, dateTo)
    ensures r.Some? ==> r.value.kind == ValueErrorKind && r.value.loc == DayPeriodLoc
                        && r.value.msg == DayOutsidePeriodMessage
                        && r.value.input == Str(RangeText(FormatDate(transactionDay), dateFrom, dateTo))
  {
    if !Within(transactionDay, dateFrom, dateTo) then
      Some(ModelValidationError(DayPeriodLoc,
                                Str(RangeText(FormatDate(transactionDay), dateFrom, dateTo)),
                                DayOutsidePeriodMessage))
    else None
  }

  /** Only the date portion of the transaction time is compared. */
  function ValidateTransactionTimeBetweenDates(transactionTime: Moment, dateFrom: Day, dateTo: Day): (r: Option<ErrorDetails>)
    ensures r.None? <==> Within(transactionTime.date, dateFrom, dateTo)
    ensures r.Some? ==> r.value.kind == ValueErrorKind && r.value.loc == TimePeriodLoc
                        && r.value.msg == TimeOutsidePeriodMessage
                        && r.value.input == Str(RangeText(FormatDateTime(transactionTime), dateFrom, dateTo))
  {
    if !Within(transactionTime.date, dateFrom, dateTo) then
      Some(ModelValidationError(TimePeriodLoc,
                                Str(RangeText(FormatDateTime(transactionTime), dateFrom, dateTo)),
                                TimeOutsidePeriodMessage))
    else None
  }

  /** Both ends of a range are inside it. */
  lemma RangeIsInclusive(dateFrom: Day, dateTo: Day)
    requires DateAtMost(dateFrom, dateTo)
    ensures ValidateTransactionDayBetweenDates(dateFrom, dateFrom, dateTo).None?
    ensures ValidateTransactionDayBetweenDates(dateTo, dateFrom, dateTo).None?
    ensures ValidateTransactionClearedBetweenDates(dateFrom, dateFrom, dateTo).None?
    ensures ValidateTransactionClearedBetweenDates(dateTo, dateFrom, dateTo).None?
  {
  }

  /** A range whose start is after its end contains nothing: all three
      checks reject every input. */
  lemma ReversedRangeRejectsAll(dateFrom: Day, dateTo: Day, d: Day, t: Moment)
    requires DateBefore(dateTo, dateFrom)
    ensures ValidateTransactionDayBetweenDates(d, dateFrom, dateTo).Some?
    ensures ValidateTransactionClearedBetweenDates(d, dateFrom, dateTo).Some?
    ensures ValidateTransactionTimeBetweenDates(t, dateFrom, dateTo).Some?
  {
    DateOrder(dateFrom, d, dateTo);
    DateOrder(dateFrom, t.date, dateTo);
    DateOrder(dateTo, dateFrom, dateTo);
  }

  /** The time check is the day check on the date portion, so every time of
      day on `date_to` is accepted. */
  lemma TimeComparesDatePortion(t: Moment, dateFrom: Day, dateTo: Day)
    ensures ValidateTransactionTimeBetweenDates(t, dateFrom, dateTo).None?
        <==> ValidateTransactionDayBetweenDates(t.date, dateFrom, dateTo).None?
    ensures DateAtMost(dateFrom, dateTo) && t.date == dateTo ==> ValidateTransactionTimeBetweenDates(t, dateFrom, dateTo).None?
  {
  }
}
