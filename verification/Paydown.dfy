/**
 The simplest form of a single zero-interest loan paid from one monthly budget: at each due date
 the balance falls by the budget, down to nothing, as long as the due itself can be met. More
 budget never turns success into failure, nor makes it later.
 */
module Paydown {
  import opened Dates

  /** How paying down ends. */
  datatype Course = PaidOff(on: Date) | CannotMeet(on: Date) | PastHorizon

  /** What a due date asks for: the instalment, never more than the balance, and all of it on the last date. */
  function Asked(balance: nat, scheduled: int, last: bool): int {
    if last || scheduled > balance then balance else scheduled
  }

  function Follow(dates: seq<Date>, balance: nat, budget: nat, scheduled: int, horizon: Date): Course
    requires dates != []
    decreases |dates|
  {
    if After(dates[0], horizon) then PastHorizon
    else if budget < Asked(balance, scheduled, |dates| == 1) then CannotMeet(dates[0])
    else if budget >= balance then PaidOff(dates[0])
    else Follow(dates[1..], balance - budget, budget, scheduled, horizon)
  }

  predicate InOrder(dates: seq<Date>) {
    forall i, j :: 0 <= i < j < |dates| ==> !After(dates[i], dates[j])
  }

  lemma {:induction false} PaidOffIsADate(dates: seq<Date>, balance: nat, budget: nat, scheduled: int, horizon: Date)
    requires dates != [] && InOrder(dates) && Follow(dates, balance, budget, scheduled, horizon).PaidOff?
    ensures !Before(Follow(dates, balance, budget, scheduled, horizon).on, dates[0])
    decreases |dates|
  {
    hide DayNumber;
    if budget < balance {
      PaidOffIsADate(dates[1..], balance - budget, budget, scheduled, horizon);
    }
  }

  /** A larger budget, or a smaller balance, pays off too, and no later. */
  lemma {:induction false} MoreBudgetIsNoWorse(dates: seq<Date>, balance: nat, budget: nat, balance': nat, budget': nat,
                                               scheduled: int, horizon: Date)
    requires dates != [] && InOrder(dates) && balance' <= balance && budget <= budget'
    requires Follow(dates, balance, budget, scheduled, horizon).PaidOff?
    ensures Follow(dates, balance', budget', scheduled, horizon).PaidOff?
    ensures !After(Follow(dates, balance', budget', scheduled, horizon).on, Follow(dates, balance, budget, scheduled, horizon).on)
    decreases |dates|
  {
    hide DayNumber;
    if budget' >= balance' {
      PaidOffIsADate(dates, balance, budget, scheduled, horizon);
    } else {
      MoreBudgetIsNoWorse(dates[1..], balance - budget, budget, balance' - budget', budget', scheduled, horizon);
    }
  }

  /** A budget as large as the balance pays off on the first date. */
  lemma WholeBalancePaysOff(dates: seq<Date>, balance: nat, budget: nat, scheduled: int, horizon: Date)
    requires dates != [] && !After(dates[0], horizon) && budget >= balance
    ensures Follow(dates, balance, budget, scheduled, horizon) == PaidOff(dates[0])
  {
  }
}
