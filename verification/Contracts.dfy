/** What a loan agreement says, as far as the engine reads it. */
module Contracts {
  import opened Dates
  import Money

  datatype RepaymentType = Annuity | DecliningPrincipal

  /** What a partial early repayment does to the schedule. */
  datatype PrepaymentEffect = BorrowerChooses | ShortenTerm | ReduceInstalment

  /** One dated rule for what an early payment costs; zero bounds and amounts are absent ones. */
  datatype Charge = Charge(fromYear: int, throughYear: int, percentBP: int, fixed: int,
                           freeAllowance: int, minCharge: int, maxCharge: int)

  datatype Prepayment = Prepayment(effect: PrepaymentEffect, feeBP: int, charges: seq<Charge>, minAmount: int)

  datatype Contract = Contract(
    loanId: string,
    version: int,
    currency: string,
    effectiveFrom: Date,
    effectiveThru: Date,
    rate: nat,
    dayCount: Money.DayCount,
    kind: RepaymentType,
    start: Date,
    maturity: Date,
    paymentDay: int,
    notBeforeDue: Date,
    scheduledPayment: int,
    hasScheduled: bool,
    rounding: Money.Policy,
    prepayment: Prepayment,
    allocationPolicy: string)
  {
    predicate CoversDate(d: Date) {
      !Before(d, effectiveFrom) && (!IsSet(effectiveThru) || !After(d, effectiveThru))
    }

    /** Interest on a balance over some days, under this contract's terms. */
    function Interest(balance: nat, days: nat): (i: nat)
      ensures i % rounding.Unit() == 0
      ensures balance == 0 || rate == 0 || days == 0 ==> i == 0
    {
      Money.Interest(balance, rate, days, dayCount, rounding)
    }

    lemma InterestIsMonotone(balance: nat, balance': nat, days: nat, days': nat)
      requires balance <= balance' && days <= days'
      ensures Interest(balance, days) <= Interest(balance', days')
    {
      Money.InterestIsMonotone(balance, rate, days, balance', rate, days', dayCount, rounding);
    }
  }
}
