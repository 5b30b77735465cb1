# Loan engine: verified model

This project models the deterministic loan engine of a debt planner and proves what its
comments, documentation and error branches promise. Amounts are integers in minor units, dates
are civil dates with real month clamping, and nothing reads a clock, a file or the network.

The parts, one module a file:

- `Money`, `Dates`, `Contracts`: accrual in 64- and 128-bit registers against exact rounding,
  checked arithmetic, civil dates and their day numbers, contract terms.
- `Amortisation`, `ProjectionMemo`, `Fees`: calendars, schedules, the bisection for the level
  instalment, the projection memo and its fingerprint, what an early payment costs and the quote.
- `Portfolio`, `Normalisation`, `SimState`, `Routing`, `LoanDues`, `Simulator`: the dated
  portfolio simulator as a class with one method for each event. `Valid` holds the identities
  (conservation of every unit of money, the permission ledger, each loan's calendar, nothing
  pending before the clock), and every event method is proved to keep it.
- `Flow`: the whole state of a run as a value and what each event does to it. Every method of the
  simulator is proved to leave exactly the state its function names, so a run is a path of states,
  and what follows is proved of paths: `Distribution` (who gets a surplus), `Charges` (every day of
  every loan is charged once), `MemoRun` (a run that remembers projections is the run without a memo
  over the input as the memo hears it), `DoubleClose` (when a due closes its loan twice), `DueTwice`
  (a due that comes up twice), `PlainRun` (a one-loan run is the simple paying down), and the cover
  that a shortage of cash presupposes, with `SharedWindow` for the days that defeat it.
- `Paydown`, `Ladder`: the inverse search for the least monthly budget, refined down to the
  simulator's own runs.
- `Dynamic`: the memoised exhaustive search over due-date splits, against schedules of due dates.
- `Candidates`, `Certificates`, `PolicyIds`, `Ranking`, `Search`, `Sorting`: the candidate space,
  what a certificate may claim, the ids and the ranking, and the parallel simulation of the
  simulator's own runs as a step relation.
- `Allocation`, `Ledger`: payment allocation, replay, accrual across contract versions.
- `Encoding`, `PlanCache`: the streamed structural key and the single-flight, byte-bounded cache
  as a step relation over arbitrary interleavings.
- `MonthlyProjection`: the second, month-by-month simulator.
- `Examples`: one loan small enough to project by hand, for the lemmas that need an input.

## Where the code and its promises part

Each of these is a lemma; the code is modelled as it stands.

- Accrual does not always refuse what it cannot represent: with a divisor above 2^62 the doubled
  remainder wraps in the half modes, and a quotient equal to the largest int64 wraps when it is
  incremented. `Money.AccrueNeverWrapsExactlyWhen` gives the exact condition, and
  `AccrueCanLoseAUnit` and `AccrueCanTurnNegative` give inputs.
- The projection fingerprint leaves out the bank's first due date, which the calendar reads. Two
  contracts that share a fingerprint project alike exactly when that date leaves them the same
  open dates and, for a declining loan with a stated payment, the same answer to whether it is the
  first of them (`ProjectionMemo.MemoIsTransparentExactlyWhen`). Every run takes up its loans in
  order before anything happens, so a memo always speaks for the first of them that owes: a run
  with a memo is the run without one over that input (`MemoRun.RunIsHeard`), and no schedule of the
  workers shows (`Search.ParallelIsSerial`). Where alike loans open alike the memo itself does not
  show either (`MemoRun.MemoNeverShows`); where they do not, an accepted input can show it
  (`MemoRun.MemoShowsOverTwins`).
- An optional payment can empty the balance while interest is still owed
  (`Fees.BalanceEmptiesWithoutClosingExactlyWhen`, with a quote in `Fees.QuoteEmptiesTheBalance`);
  interest is then no longer booked, the anchor stays behind, and the same due date can come up
  twice (`LoanDues.DueMovesOnExactlyWhen`), as it does in `DueTwice.TheSameDueComesTwice`.
  Termination therefore rests on a measure that counts repeated dues of one day.
- In the pooled mode money held for a date lapses, without a fresh obligation, when the cash is
  gone (`Simulator.Sim.SettleHeld`).
- A due whose own income routes money can find its loan already closed and retires it again
  (`DoubleClose.ArrivalClosesExactlyWhen`); under a kept rollover the budget then falls twice
  (`DoubleClose.BudgetFallsTwiceExactlyWhen`), as it does in the runs of
  `DoubleClose.BudgetFallsTwiceInARun`.
- Two dues of one loan can share an income window, of which one is reserved, if and only if
  28 <= payment day < pay day (`Dates.TwoDuesShareAWindowExactlyWhen`); under any other days a due
  in the window fits it by what it asks for alone (`Simulator.Sim.FitsExactlyWhen`), and a run goes
  short only after an income that did not cover what is reserved, a due that asked for more, or one
  that lay before the valuation (`Simulator.Run`). Where two dues share a window, a run whose every
  income covers what is reserved can go short (`SharedWindow.CoveredRunGoesShort`).
- A split does not total its payment when the order names a bucket code that does not exist
  (`Allocation.SplitAddsUpExactlyWhen`, with an input in `Allocation.UnknownBucketLosesTheSplit`),
  and the debt falls by what was paid exactly when the lender's credit is not taken as if it were
  owed (`Allocation.PaymentLowersTheDebtExactlyWhen`, with an input in
  `Allocation.OrderingTheCreditRaisesTheDebt`).
- A boundary day shared by two contract versions is priced under the new terms by an interval
  that starts on its eve, against the comment
  (`Ledger.SharedDayIsPricedByTheOldTermsExactlyWhen`).
- Normalising can retire the loan a routed receipt is meant for, after which the input is refused
  (`Normalisation.NormalIsAcceptedExactlyWhen`, with an input in
  `Normalisation.NormalisingCanRefuse`).

## Model

| member | source | states |
|---|---|---|
| Simulator.Run | pkg/core/plan/sim.go:100-206 | Every run ends, in the outcome of the state its events lead to one by one: refused input, a named failure, or every loan closed no later than its last contractual date with total paid = what was owed + interest + fees and all event days within the horizon; the identity failure never happens; a run falls short of cash only where its cover is lost by then, and unless some loan has 28 <= payment day < pay day that means that after the last event bringing income the cash did not cover what is reserved, or a due since then lay before the valuation, asked more than its instalment or left interest behind |
| Simulator.Sim.constructor | pkg/core/plan/sim.go:110-171 | A fresh simulator holds every identity and is the state the input and the canonical policy name, or some loan has no projection |
| Flow.RunsStartOnTime | pkg/core/plan/sim.go:119-170 | A run starts with the declared budget, reviews permission on the valuation day, and expects its first income on the first pay day neither before the valuation nor counted in the cash already |
| Simulator.Sim.TakeLoans | pkg/core/plan/sim.go:129-150 | Each loan starts from its position with its first obligation; fails exactly when some loan that owes anything cannot be projected |
| Simulator.Sim.TakeLumps | pkg/core/plan/sim.go:151-163 | Retained cash moves to buckets without changing the total; only confirmed receipts wait for their dates |
| Simulator.Sim.Follow | pkg/core/plan/sim.go:172-193 | The event loop terminates in a state that some number of turns leads to, with the cover those turns leave; days never go backwards; every identity holds after every event |
| Simulator.Sim.Turn | pkg/core/plan/sim.go:172-193 | One turn takes the next event, or ends the run past the horizon: the state and the cover after it follow from those before it, and less is left to do |
| Flow.EndIsUnique | pkg/core/plan/sim.go:172-193 | However many turns are counted, a run ends in one state |
| Simulator.Sim.NextEvent | pkg/core/plan/sim.go:257-291 | The picked event is still to come, none is earlier by date, same-day rank and index, and the three walks over buckets, receipts and loans find it |
| Simulator.TheDaysOrder | pkg/core/plan/sim.go:257-291 | On one day permission is reviewed first, then receipts, then income, then kept cash, then dues by index |
| Simulator.Sim.Advance | pkg/core/plan/sim.go:172-178 | Moving the clock to the picked event leaves nothing still to happen before it |
| Simulator.Sim.Process | pkg/core/plan/sim.go:178-193 | Any event keeps every identity, leaves strictly less to do, leaves exactly the state its function names, and under cover is never short of cash |
| Simulator.Sim.Happen | pkg/core/plan/sim.go:172-193 | One event within the horizon leaves exactly the state and the cover that follow from those before it |
| SimState.DueLowersWork | pkg/core/plan/sim.go:172-193 | Settling the earliest due lowers the well-founded measure even when the same due date comes up again the same day |
| Simulator.Sim.Refresh | pkg/core/plan/sim.go:209-220 | The obligation is the projection of the current state, on the next calendar date; the instalment is fixed the first time it is known |
| Simulator.Sim.Reserved | pkg/core/plan/sim.go:409-430 | Reserve = floor + dues of open loans in the income window + everything pending |
| Simulator.Sim.OptionalPermission | pkg/core/plan/spending.go:172-186 | Permission left = period permission - dues left in the period - everything pending |
| Simulator.Sim.OptionalCash | pkg/core/plan/spending.go:188-200 | Surplus is nothing while cash is carried to a date, else the smaller of spare cash and spare permission |
| Simulator.Sim.Allocate | pkg/core/plan/sim.go:432-469 | After the routed cash, the surplus is shared in the policy's order: the first open loan that takes optional payments is asked about the whole of it, each later one about exactly what those before it left, and takes what it is quoted; every identity and the reserve are kept |
| Distribution.LaterLoansGetTheRest | pkg/core/plan/sim.go:441-468 | In an order that names each loan once, a loan comes out as it stood at the start asked about what the loans ranked before it left, and as it was where they left nothing |
| Distribution.TheFirstLoanTakesAll | pkg/core/plan/sim.go:441-468 | Of two loans, one that can use the whole surplus leaves the one ranked after it untouched, and the sharing cannot fail |
| Charges.EventsCharge | pkg/core/plan/sim.go:540-555 | Whatever an event does, it charges each loan at most once: its contract's interest on the balance then outstanding for the days since it was booked, and no balance is paid before its days are booked |
| Charges.RunsChargeEveryDayOnce | pkg/core/plan/sim.go:540-594 | The interest of a finished run of any policy, from any memo, is exactly what its turns charged, starting from each position's own day and balance: each piece the contract's interest on the balance then outstanding, each taken up where the one before ended |
| Simulator.Sim.Offer | pkg/core/plan/sim.go:446-468 | One loan is paid on receipt, held for its due date or left, exactly by its quote, with the exact state left; what is left of the surplus stays affordable |
| Simulator.Sim.HoldForDue | pkg/core/plan/sim.go:461-466 | Money held for a due date leaves cash alone and is taken off spare cash and permission so it is never promised twice |
| Simulator.Sim.AskQuote | pkg/core/plan/sim.go:473-535 | Asking books interest and changes nothing held back; the quote or the failure is the lender rule's own |
| Simulator.Sim.BookInterest | pkg/core/plan/sim.go:540-555 | Booking interest changes no claim on cash and keeps the loan consistent |
| Simulator.Sim.Prepay | pkg/core/plan/sim.go:557-594 | Exact new state of an optional payment: cash, loan, month, totals, permission, budget and record; conservation and permission identities kept |
| Simulator.Sim.PayOptional | pkg/core/plan/sim.go:557-594 | An optional payment keeps every identity and takes no more than its outflow from what is spare |
| Simulator.Sim.PayRequired | pkg/core/plan/sim.go:605-664 | A due is paid exactly, or fails with the exact shortfall of permission first and cash second; interest before principal; budget falls only when the loan clears |
| Simulator.Sim.TakePayment | pkg/core/plan/sim.go:633-664 | Exact new state after a due payment: cash, loan, month, totals, permission, budget and record, with both identities kept |
| Simulator.Sim.SettleHeld | pkg/core/plan/sim.go:671-695 | Held money is paid up to what is available, or lapses; frees at least as much as it spends |
| Simulator.Sim.SettleRest | pkg/core/plan/sim.go:664-699 | After a due that left a debt: held money, then a fresh obligation; exactly the state named, identities kept, and no more room taken than was promised |
| Simulator.Sim.SettleLoan | pkg/core/plan/sim.go:605-699 | A settled loan closes, or its next date lies ahead, or a second due the same day has less left to do; exact errors and exact state |
| Simulator.Sim.SettleGuarded | pkg/core/plan/sim.go:597-699 | A due inside the guard is met from what was put aside and leaves every other claim covered |
| Simulator.Sim.Due | pkg/core/plan/sim.go:597-699 | A due with its income, settlement and routing keeps every identity; guarded dues never run short and keep the reserve covered |
| Simulator.Sim.DueStep | pkg/core/plan/sim.go:597-699 | After a due the run stays covered exactly when a new income covered it or it was covered and the due fitted its window |
| Simulator.Sim.FitsExactlyWhen | pkg/core/plan/sim.go:409-430 | Unless 28 <= payment day < pay day, a due on or after the valuation in the last income's window (without a pay day, in its month) fits if and only if it asks no more than its instalment and leaves no interest behind |
| Simulator.Sim.KeepingIsCovering | pkg/core/plan/sim.go:409-430 | Under such days a turn that keeps cover by what its due asks keeps cover by the window |
| SharedWindow.CoveredRunGoesShort | pkg/core/plan/sim.go:409-430 | A concrete accepted run with payment day 28 and pay day 31: every income covers what is reserved and every due asks just its instalment, yet the second due of one window finds no cash |
| Simulator.Sim.Close | pkg/core/plan/sim.go:702-731 | Closing records first clear, pay-off and months, and lowers the budget by the freed instalment under a kept rollover, never below zero |
| Flow.TheFirstClearStays | pkg/core/plan/sim.go:702-731 | Whatever closes later, the first loan to clear stays the first, the pay-off date is the latest, and the months are those of the close that left nothing open |
| Simulator.Sim.CloseCycle | pkg/core/plan/sim.go:328-356 | The cycle closes into the timeline with open debt and all cash including buckets; the peak never falls |
| Simulator.Sim.Income | pkg/core/plan/sim.go:376-394 | Income credits exactly the month's override, funding or budget, opens its cycle and schedules the next income on the pay day of the next month, or that month's last day |
| Simulator.Sim.Lump | pkg/core/plan/sim.go:358-374 | A receipt credits exactly its amount, or its whole day when money is routed, and keeps the reserve covered |
| Simulator.Sim.ArriveAtDue | pkg/core/plan/sim.go:599-604 | Without a pay day only the first due of a month brings income; the due date stays reached |
| Simulator.Sim.Conserve | pkg/core/plan/sim.go:746-788 | The end-of-run identity check never fails on a run that reached its end |
| Simulator.Sim.Finish | pkg/core/plan/sim.go:194-205 | Closing the last cycle balances the timeline against everything paid |
| Simulator.Sim.AddRouted | pkg/core/plan/cash_routing.go:167-201 | A routed receipt is split over buckets with no money lost, in stable order |
| Simulator.Sim.RouteCash | pkg/core/plan/cash_routing.go:207-287 | Reconsidering every bucket keeps the identities and the settled loan's reserve, and no bucket asks to be woken again that day |
| Simulator.Sim.RouteOne | pkg/core/plan/cash_routing.go:207-287 | One bucket is kept, released to the pool, or spent on its loan under the same guards as free cash |
| Simulator.Sim.ReceiveRoutedDate | pkg/core/plan/cash_routing.go:289-311 | All receipts of the day come in at once: inflow grows by exactly their total, split between pool and buckets |
| Routing.SortKeepsBuckets | pkg/core/plan/cash_routing.go:187-200 | Sorting buckets neither loses nor merges money |
| Routing.PartsAddUp | pkg/core/plan/cash_routing.go:167-186 | The parts of an accepted routed receipt are positive and total the receipt |
| Routing.ReconsideringIsSafe | pkg/core/plan/cash_routing.go:211-233 | Passing a bucket's gates keeps its money and leaves no wake on or before the day; kept money is released exactly when its hold date is reached and it meets its threshold |
| Routing.BucketsStandInOrder | pkg/core/plan/cash_routing.go:187-200 | Buckets stand by destination, then hold date, then threshold, whatever the order their money came in |
| Flow.PartsKeepApart | pkg/core/plan/cash_routing.go:167-186 | Money from a routed receipt is kept for its own destination and gates: no other destination or gate gains or loses any |
| Simulator.Sim.Period | pkg/core/plan/spending.go:107-170 | A permission event grants the limit in force that day; only a new period resets what was spent; over-limit is reported exactly |
| Simulator.Sim.GrantPermission | pkg/core/plan/spending.go:125-137 | Left = limit - spent; a changed limit inside a period never restores spent permission |
| Simulator.Sim.TermsInForce | pkg/core/plan/spending.go:108-124 | The walk over dated changes finds the limit and carry terms in force on the day |
| Simulator.Sim.HandOver | pkg/core/plan/spending.go:149-159 | Without carry exactly the cash beyond the reserve leaves for the household |
| Simulator.Sim.ReleasePending | pkg/core/plan/spending.go:145-148 | Every promise to a due date is taken back, and what is spare never falls |
| Portfolio.PermissionIsConstant | pkg/core/plan/spending.go:107-170 | Between two reconsiderations the permission in force is the same on every day |
| Portfolio.LimitIsTheLatestChange | pkg/core/plan/spending.go:108-124 | The limit on a day is that of the latest change on or before it |
| Portfolio.LimitBeforeAnyChange | pkg/core/plan/spending.go:108-124 | Before any change it is the month's override, else the running budget |
| Portfolio.CarryIsTheLatestStated | pkg/core/plan/spending.go:108-124 | The carry terms are those of the latest change that states a rule, else the plan's own |
| Dates.PeriodsTile | pkg/core/plan/spending.go:86-105 | Spending periods tile the calendar under day clamping: a date is in [start, end) exactly when it has that start |
| Dates.PeriodContains | pkg/core/plan/spending.go:86-105 | A period contains its date and ends where the next one starts |
| Dates.TwoDuesShareAWindowExactlyWhen | pkg/core/plan/sim.go:409-430 | Two dues of one schedule can share an income window, of which one is reserved, if and only if 28 <= payment day < pay day |
| LoanDues.NextDueLeavesTheWindow | pkg/core/plan/sim.go:409-430 | On a loan's own calendar the due after one in the window lies outside it, unless 28 <= payment day < pay day |
| LoanDues.DueMovesOnExactlyWhen | pkg/core/plan/sim.go:540-555 | A settled due that leaves a debt moves past its date if and only if there was a balance to book interest on or it was booked already, and where money was held, cash is left beyond the due |
| DueTwice.TheSameDueComesTwice | pkg/core/plan/sim.go:540-555 | A concrete accepted run: an optional payment takes the whole balance, and the next two turns settle the same due of the same loan on the same date |
| DoubleClose.ArrivalClosesExactlyWhen | pkg/core/plan/sim.go:597-605 | A loan is closed before its own due is settled if and only if the arrival brings the month's income and some routed bucket, at its turn, covers the pay-off |
| DoubleClose.TurnClosesExactlyWhen | pkg/core/plan/cash_routing.go:207-287 | One bucket's turn closes a loan due that day if and only if it is spendable, names the loan, is not held back by the policy, and what the guards leave it covers the pay-off |
| DoubleClose.ClosedIsShutAgain | pkg/core/plan/sim.go:597-664 | Settling a loan the arrival closed asks for nothing, moves no cash and retires it again, budget included |
| DoubleClose.BudgetFallsTwiceExactlyWhen | pkg/core/plan/sim.go:702-731 | Settling lowers the budget for a loan already closed if and only if the arrival closed it, the rollover keeps freed instalments, and there is an instalment and a budget left |
| DoubleClose.BudgetFallsTwiceInARun | pkg/core/plan/sim.go:597-731 | For every plain loan with its whole debt earmarked in opening cash, an accepted run ends with its budget lowered by two instalments |
| DoubleClose.HouseIsGiftable | pkg/core/plan/sim.go:597-731 | A concrete loan of that family |
| LoanDues.PaymentLeavesDates | pkg/core/plan/sim.go:615-629 | A due that leaves a debt is never the last contractual one |
| LoanDues.PlainDueIsAPaydownStep | pkg/core/plan/ladder.go:100-108 | At each due of a plain loan the balance becomes max(0, balance - budget) whenever the due can be met, else the exact shortfall |
| PlainRun.SettlingIs | pkg/core/plan/sim.go:605-699 | From pooled funding, settling a due leaves exactly the loan and cash of the one-loan form, or fails where that form does |
| PlainRun.PlainTurn | pkg/core/plan/ladder.go:100-108 | One turn of a plain run takes one step of its course |
| PlainRun.PlainRunFollowsItsCourse | pkg/core/plan/ladder.go:100-108 | In the domain of the inverse search a run ends exactly as its course: the pay-off date, the first due it cannot meet, or the horizon |
| Fees.QuoteStaysWithinAllowance | pkg/core/plan/sim.go:471-535 | A quote adds up, stays within its allowance and the balance, closes exactly when the allowance covers the pay-off, and the overrun branch is dead |
| Fees.FeeIsMonotone | pkg/core/plan/fees.go:26-93 | Crediting less principal never costs a larger fee, through allowances, clamps and rounding |
| Fees.ChargeFor | pkg/core/plan/fees.go:26-80 | The loop over rules computes the fee specification, errors included |
| Fees.BasisPointsAreTenThousandths | pkg/core/plan/fees.go:85-93 | Before quantising, ten thousand times a percentage fee is within 5,000 of amount x points |
| Fees.RuleFeeIs | pkg/core/plan/fees.go:36-80 | A rule charges nothing in proportion within its free allowance, else the percentage of the excess; with its fixed part, kept between its least and greatest charge |
| Fees.RulesAddUp | pkg/core/plan/fees.go:30-80 | A list of rules charges the sum of its rules, each only in the contract years it runs from and through |
| Fees.ContractYearRunsBetweenAnniversaries | pkg/core/plan/fees.go:95-103 | A contract year runs from one anniversary of the start to the day before the next |
| Fees.QuoteUsesItsAllowance | pkg/core/plan/sim.go:505-530 | A partial quote leaves less than a settlement unit of what the balance and the allowance less its fee permit, unless that misses the lender's minimum; then nothing is quoted |
| Flow.CreditUsesAllowance | pkg/core/plan/sim.go:557-594 | A credited principal uses up the free allowance of its own contract year and of no other |
| Fees.PartialPrincipalIsAligned | pkg/core/plan/sim.go:505-530 | Partial principal is a whole number of settlement units |
| Fees.BalanceEmptiesWithoutClosingExactlyWhen | pkg/core/plan/sim.go:471-535 | For every contract a quote empties the balance and leaves the loan open if and only if the balance is payable and the allowance covers it beside its fee but not the pay-off |
| Fees.QuoteEmptiesTheBalance | pkg/core/plan/sim.go:471-535 | A concrete quote that takes the whole balance and leaves the loan open |
| Fees.PartialPaymentLeavesABalance | pkg/core/plan/sim.go:471-535 | With no interest accrued a partial payment never empties the balance |
| Ladder.BudgetFor | pkg/core/plan/ladder.go:109-185 | Answers with the least settlement multiple that clears by the target whenever any does; otherwise no budget clears; neither non-monotonicity branch is ever taken |
| Ladder.Bisect | pkg/core/plan/ladder.go:138-185 | The bisection ends with the least multiple and its two closing checks pass |
| Ladder.Clears | pkg/core/plan/ladder.go:128-133 | A trial run clears by the date exactly when the simple course does, and fails for the course's own reason |
| Ladder.MoreBudgetClears | pkg/core/plan/ladder.go:100-108 | A larger budget clears by every date a smaller one does |
| Ladder.CourseIs | pkg/core/plan/ladder.go:100-108 | The course of the input is paying down over the dates ahead, which are in order, or there is none |
| Ladder.RequiredNow | pkg/core/plan/ladder.go:52-69 | Total of the next instalments of live loans, or the first refusal |
| Paydown.MoreBudgetIsNoWorse | pkg/core/plan/ladder.go:100-108 | More budget, or less balance, still pays off and no later |
| Normalisation.Normalise | pkg/core/plan/input.go:255-293 | Positions advance by at most three assumed instalments, in order, with the first problem reported |
| Normalisation.NormalisedIsCurrent | pkg/core/plan/input.go:255-293 | No due is left behind the valuation, loans and order are kept, and doing it again changes nothing |
| Normalisation.NormalIsAcceptedExactlyWhen | pkg/core/plan/input.go:255-293 | A normalised input is accepted again if and only if, before normalising, no receipt is earmarked for a loan whose assumed instalments clear it |
| Normalisation.NormalisingCanRefuse | pkg/core/plan/input.go:255-293 | A concrete accepted input whose normalisation clears an earmarked loan and is refused |
| Normalisation.NormalIsIdempotent | pkg/core/plan/input.go:255-293 | Normalising twice is normalising once |
| ProjectionMemo.Cache.NextObligation | pkg/core/plan/projection.go:82-118 | The memo answers with the fresh projection of the contract it first resolved, and never changes its answer |
| ProjectionMemo.MemoIsTransparentExactlyWhen | pkg/core/plan/projection.go:67-74 | Two contracts with one fingerprint, of either repayment type, project alike in every state if and only if they have the same open dates and, for a declining loan with a stated payment, the same answer to whether the bank's date is the first of them |
| ProjectionMemo.ProjectionReads | pkg/core/plan/projection.go:67-74 | A projection reads nothing beyond the fingerprint and the bank's first due date |
| ProjectionMemo.AskingHears | pkg/core/plan/projection.go:82-118 | Asking a memo whose calendars all belong to the first live contract of each fingerprint answers with that contract's projection, leaves such a memo, and forgets nothing |
| ProjectionMemo.ResolvingHears | pkg/core/plan/projection.go:82-100 | The same of resolving a calendar |
| ProjectionMemo.AskingIsProjecting | pkg/core/plan/projection.go:82-118 | Where loans that share a fingerprint open alike, asking a memo that can be trusted is projecting, and leaves a memo that can be trusted |
| MemoRun.RunIsHeard | pkg/core/plan/sim.go:100-206 | For every input and policy, a run from any memo that earlier runs of the input may have left, an empty one included, is event by event the run without a memo over the input in which every loan that owes carries the calendar of the first such loan with its fingerprint; it leaves such a memo |
| MemoRun.AnyMemoRunsAlike | pkg/core/plan/sim.go:100-206 | Two memos that earlier runs of the input may have left never make a difference to a run |
| MemoRun.MemoNeverShows | pkg/core/plan/sim.go:100-206 | Where loans that share a fingerprint open alike, a run from any such memo has the outcome of a run that remembers nothing |
| MemoRun.RenewedHears | pkg/core/plan/sim.go:209-220 | A fresh obligation from such a memo is the one the input as heard gives |
| MemoRun.DueMetAlike | pkg/core/plan/sim.go:605-664 | A due asks what the remembered calendar asks: the one of the input as heard |
| MemoRun.MemoShowsOverTwins | pkg/core/plan/projection.go:67-74 | For every two loans the memo cannot tell apart of which one has no projection of its own, an accepted input shows the memo: the run without it refuses at the start, the run with it goes ahead; the two do not open alike |
| MemoRun.TwinsExist | pkg/core/plan/projection.go:67-74 | Two such loans |
| Dynamic.SearchDynamic | pkg/core/plan/dynamic.go:73-157 | Complete: least interest over all schedules of due dates, fewest of them among equals, and no cost means that there is no schedule; truncated: the steps are a schedule at the stated cost; what it pays is the debts and that interest, out of the opening cash and one funding a date; the domain guard is exact |
| Dynamic.PlansAreTheSchedules | pkg/core/plan/dynamic.go:224-330 | What the recursion explores is exactly the schedules: interest on the balance then open from each date to the next without gap or overlap, each due its instalment or all that is owed, whole quanta beyond, every date settled from cash and funding |
| Dynamic.Search.Solve | pkg/core/plan/dynamic.go:224-330 | Memoised recursion: the tail is always a legal plan and, when not truncated, the best; the memo stays sound |
| Dynamic.Search.Split | pkg/core/plan/dynamic.go:280-322 | Trying top, top - q, ..., 0 loan by loan covers every split that settles |
| Dynamic.Search.MeetDues | pkg/core/plan/dynamic.go:250-279 | Interest and dues of the event, or infeasible, or overflow |
| Dynamic.TopIsAligned | pkg/core/plan/dynamic.go:308-320 | Every remainder the split counts down from is a whole number of quanta |
| Dynamic.PlanConserves | pkg/core/plan/dynamic.go:224-330 | Every legal plan pays exactly balances plus interest out of cash carried and funding |
| Search.ParallelIsSerial | pkg/core/plan/search.go:148-230 | For every input, interleaving and worker count an uncancelled parallel simulation, each worker with its own memo, returns exactly what the serial loop with one shared memo returns, and what each candidate's run finds on its own from an empty memo, or the same first fault |
| Search.MemosAreTransparent | pkg/core/plan/search.go:175-205 | For every input, whatever runs of it a worker's memo comes from, it changes no run, and the run leaves such a memo |
| Search.AloneIsFresh | pkg/core/plan/search.go:175-205 | Where loans that share a fingerprint open alike, what a candidate's run finds on its own is what a run without any memo finds |
| Search.WorkersFinish | pkg/core/plan/search.go:160-215 | Every worker step leaves less to do |
| Search.RunWith | pkg/core/plan/search.go:232-249 | The simulator's run over the input as heard is the run with the memo, and leaves a memo that runs of the input may leave |
| Search.SimulateSerially | pkg/core/plan/search.go:232-249 | The serial loop, handing one memo from run to run, returns what the runs find in turn with it, which is what each candidate finds on its own, for every input |
| Search.SharingIsTransparent | pkg/core/plan/search.go:232-249 | Sharing one memo over all candidates changes none of their runs, for every input |
| Search.CollectIsTheFirstFault | pkg/core/plan/search.go:216-230 | The earliest fault in candidate order decides; otherwise the feasible results in order |
| Search.Universe.Simulate | pkg/core/plan/comparison.go:80-98 | The remembered run of a canonical policy, made with the universe's own memo and relabelled, is what simulating the policy on its own finds; only a form not met before touches the memo |
| Search.Universe.SimulateAll | pkg/core/plan/search.go:149-168 | The sequential path over remembered runs, made with the universe's own memo, returns what every candidate finds on its own, or the same first fault |
| Search.KeysDecideRuns | pkg/core/plan/comparison.go:67-98 | Policies have one key if and only if they have one canonical form, and then they run alike from every memo |
| Search.CanonicalDecides | pkg/core/plan/comparison.go:67-78 | Canonical forms are equal if and only if the policies agree on order, timing, rollover, minimum, mode and resolved effects; the form is its own |
| Search.FixedEffectsAreNotChosen | pkg/core/plan/comparison.go:67-78 | Policies that differ only in effects their contracts do not leave open run alike, from any memo |
| Candidates.Permutations | pkg/core/plan/candidates.go:163-182 | The in-place swap yields every order exactly once, n! in all |
| Candidates.Enumeration.From | pkg/core/plan/candidates.go:163-182 | The recursion lists every order of the tail and restores the working array |
| Candidates.DedupeOrders | pkg/core/plan/candidates.go:184-198 | Keeps the first of equal orders and remembers the other names |
| Candidates.EffectVectors | pkg/core/plan/candidates.go:19-52 | Up to four free loans: every mix of effects exactly once; beyond that two uniform vectors |
| Candidates.TimingVectors | pkg/core/plan/candidates.go:58-93 | Mixes of timings are tried exactly when fees could reward waiting |
| Candidates.Mixes | pkg/core/plan/candidates.go:33-50 | Bit masks give every mix of free choices exactly once |
| Candidates.Enumerate | pkg/core/plan/search.go:122-140 | All combinations in order, or exactly the capped prefix, with the cap reported exactly |
| Candidates.RankIsInjective | pkg/core/plan/search.go:122-140 | Different choices come at different places |
| Certificates.BatchThresholds | pkg/core/plan/candidates.go:98-121 | Every contract breakpoint is listed, once |
| Certificates.BuildSpace | pkg/core/plan/search.go:267-341 | Whatever was left out of the space is reported as truncation |
| Certificates.ExhaustiveIsHonest | pkg/core/plan/report.go:168-200 | When the exhaustive strength is claimed every order with every effect and timing vector was attempted exactly once |
| Certificates.ProvenOptimalIsLeast | pkg/core/plan/report.go:202-215 | A certified optimum costs no more than the finished run of any policy, enumerated or not |
| Certificates.RunsNeverPay | pkg/core/plan/sim.go:100-206 | No finished run of any policy, from any memo, has negative interest or fees |
| Ranking.BetterIsAnOrder | pkg/core/plan/report.go:217-268 | The comparator is a strict order, total on policies with different ids |
| Ranking.BetterIsLexicographic | pkg/core/plan/report.go:217-268 | The comparator is the lexicographic order of the goal's measures, then the id |
| Ranking.GoalsDecide | pkg/core/plan/report.go:217-268 | Total cost, the last pay-off, the month of relief and the first loan cleared decide their goals before anything else |
| PolicyIds.IdNamesOnePolicy | pkg/core/plan/policy.go:69-91 | Policies over as many loans have one id if and only if they are the same policy |
| Ranking.CandidatesHaveDistinctIds | pkg/core/plan/search.go:122-140 | Every attempted candidate has an id of its own, across rollovers |
| Ranking.RankRuns | pkg/core/plan/report.go:82-110 | The ranking is a permutation of the runs of the goal's rollover, kept for relief and rolled otherwise, with the best first |
| Ranking.RankingIgnoresOrder | pkg/core/plan/report.go:82-110 | The ranking does not depend on the order the runs came in |
| Ranking.FindReliefMonth | pkg/core/plan/report.go:278-306 | The walk back finds the relief month |
| Ranking.ReliefIs | pkg/core/plan/report.go:278-306 | It is the first month of the last stretch within the target |
| Ranking.ReliefLasts | pkg/core/plan/report.go:278-306 | From the month of relief on the required totals stay within the cap, or below the baseline by at least what is to be freed |
| Amortisation.Solve | pkg/core/amortisation/solve.go:41-117 | Returns the least positive settlement multiple that clears the loan; the refusal for a bound that does not clear is dead |
| Amortisation.LevelInstalmentIsLeast | pkg/core/amortisation/solve.go:41-117 | A positive number of units clears the loan if and only if it is no smaller than the result |
| Amortisation.ClosingIsAntitone | pkg/core/amortisation/solve.go:60-112 | A larger instalment or smaller balance never leaves more, row by row through rounded interest |
| Amortisation.UpperBoundClears | pkg/core/amortisation/solve.go:52-80 | The starting upper bound clears |
| Amortisation.WalkLevel | pkg/core/amortisation/schedule.go:208-277 | The row loop produces the schedule rows and their totals |
| Amortisation.WalkDeclining | pkg/core/amortisation/declining.go:67-143 | The declining loop produces its rows and totals, or the contradiction with the bank's figure |
| Amortisation.ResolveCalendar | pkg/core/amortisation/schedule.go:66-103 | The date loop computes the calendar, refusals included |
| Amortisation.RemainingDates | pkg/core/amortisation/schedule.go:106-133 | The loop drops exactly the dates no longer ahead |
| Amortisation.PaymentDatesAreTheOccurrences | pkg/core/amortisation/schedule.go:66-103 | The calendar is exactly the monthly occurrences after the start up to maturity |
| Amortisation.BuildSettlesThePrincipal | pkg/core/amortisation/calendar.go:62-170 | A non-empty schedule telescopes to zero, totals principal plus interest, falls on the remaining dates, and its first row is the next obligation |
| Amortisation.BuildChargesEveryDay | pkg/core/amortisation/calendar.go:62-170 | A schedule charges every day from its anchor to its last row once, on the balance then open; an annuity pays the instalment until less is owed, a declining loan retires the largest equal share of whole units |
| Amortisation.DatesAheadAreAhead | pkg/core/amortisation/calendar.go:45-60 | Remaining dates are a strictly increasing suffix of the calendar after the anchor |
| Amortisation.DatesAheadAreExactly | pkg/core/amortisation/schedule.go:106-133 | The dates ahead are exactly the contract's dates after the anchor and not before the bank's first due date |
| Money.Accrue | pkg/core/money/accrual.go:106-154 | In 64/128-bit registers: exact rounded interest or a refusal, wherever no unguarded step wraps; negative arguments refused |
| Money.AccrueNeverWrapsExactlyWhen | pkg/core/money/accrual.go:106-154 | "Exact or refused" holds if and only if neither the doubled remainder nor the incremented quotient wraps |
| Money.AccrueCanLoseAUnit | pkg/core/money/rounding.go:62-90 | A concrete accrual whose doubled remainder wraps and loses one whole unit |
| Money.AccrueCanTurnNegative | pkg/core/money/rounding.go:62-90 | A concrete accrual whose incremented quotient wraps to the least int64 |
| Money.InterestIsMonotone | pkg/core/money/accrual.go:106-154 | Rounded interest never falls as principal, rate or days grow |
| Money.InterestErrsByHalfAUnit | pkg/core/money/accrual.go:106-154 | In the half modes the error is at most half a settlement unit |
| Money.InterestIsTheYearsShare | pkg/core/money/accrual.go:55-61 | In every convention interest is principal x rate x days over its own year, 360 days under actual/360 and 30/360 and 365 otherwise, rounded once to whole units |
| Money.AYearEarnsTheRate | pkg/core/money/accrual.go:106-154 | A full year of each convention earns principal x rate, rounded once |
| Money.RoundQuotient64IsExact | pkg/core/money/rounding.go:62-90 | The machine rounding is exact except for a half-mode remainder of 2^62 or more |
| Money.CheckedArithmeticIsExact | pkg/core/money/money.go:119-138 | Checked addition and subtraction detect exactly the results outside int64 |
| Money.MulNoOverflowIsExact | pkg/core/money/accrual.go:173-181 | The division test detects exactly the products outside int64 |
| Money.Quantise | pkg/core/money/accrual.go:157-171 | Quantising lands on a unit; downwards it moves towards zero by less than a unit |
| Money.QuantiseRounds | pkg/core/money/accrual.go:157-171 | In every mode the size of an amount is rounded to a whole number of units and its sign kept |
| Dates.CompareIsDayOrder | pkg/core/date/date.go:89-114 | Field comparison is the order of day numbers, both ways |
| Dates.NextDayIsOneLater | pkg/core/date/date.go:120-125 | The next civil day is one day number later |
| Dates.DayNumbersAreGregorian | pkg/core/date/date.go:125-155 | Day numbers are the Gregorian calendar's own count of years, leap days, months and days |
| Dates.ClampedToTheLastDay | pkg/core/date/schedule.go:12-50 | A month that lacks the day has its last day instead |
| Dates.OccurrencesIncrease | pkg/core/date/schedule.go:40-50 | Occurrences strictly increase under month clamping |
| Ledger.AccrueAcross | pkg/core/ledger/helpers.go:45-79 | Interest over an interval is the sum over its segments; the walk terminates and the no-days branch is dead |
| Ledger.PrincipalAloneEarns | pkg/core/ledger/helpers.go:80-104 | Every segment earns its version's interest on principal and overdue principal for its own days, and nothing else is earned |
| Ledger.OneVersionEarnsItsInterest | pkg/core/ledger/helpers.go:80-104 | Within one version an interval earns that version's interest on principal and overdue principal |
| Ledger.MonthsHaveThirtyDays | pkg/core/date/date.go:131-144 | Under 30/360 every month counts thirty days |
| Ledger.InterestDoesNotCompound | pkg/core/ledger/helpers.go:80-104 | Anchors with the same principal, whatever else they owe, accrue the same interest at every event and after it until a payment is allocated, and stay apart by what they were apart |
| Ledger.ContractFor | pkg/core/ledger/helpers.go:19-38 | Finds the version in force |
| Ledger.VersionOnIsTheLatest | pkg/core/ledger/helpers.go:19-38 | The version in force covers the day, none that covers it starts later, and it exists exactly when some version covers the day |
| Ledger.SegmentsTile | pkg/core/ledger/helpers.go:45-79 | Segments tile (from, to] and every day is priced under a version that covers it |
| Ledger.SegmentCoversDays | pkg/core/ledger/helpers.go:60-75 | No segment is empty |
| Ledger.EveryDayUnderItsVersion | pkg/core/ledger/helpers.go:45-79 | With disjoint versions every day is charged under the version in force that day |
| Ledger.SharedDayIsPricedByTheOldTermsExactlyWhen | pkg/core/ledger/helpers.go:40-79 | A shared boundary day is priced by the old terms, except exactly from its eve, by the new ones |
| Ledger.Partition | pkg/core/ledger/replay.go:164-192 | Every event is active or skipped for one stated reason; ambiguity and watermark exact |
| Ledger.PartitionKeepsEvents | pkg/core/ledger/replay.go:164-192 | Active and skipped events split the multiset |
| Ledger.Replay | pkg/core/ledger/replay.go:65-157 | The loop computes the replay of the sorted active events, errors included |
| Ledger.ReplayConserves | pkg/core/ledger/replay.go:65-157 | Final debt = anchor debt + interest + fees - what payments settled; no bucket negative; the impossible-position error is dead |
| Ledger.ReplayIgnoresListing | pkg/core/ledger/replay.go:65-157 | Listing the same events in another order changes nothing but the order of the skipped list |
| Ledger.ReplayOrderSorts | pkg/core/model/event.go:115-129 | The replay order is a strict order |
| Ledger.ReplayFollowsTheCalendar | pkg/core/model/event.go:115-129 | Events are replayed by value date, and on one date as the bank ordered them, then as recorded |
| Ledger.ConfirmedExactlyWhen | pkg/core/ledger/helpers.go:179-212 | A state is confirmed exactly when it owes no arrears, hides no ambiguity, rests on the bank's figure and that figure is fresh |
| Allocation.Apply | pkg/core/allocation/allocation.go:134-207 | Settles bucket by bucket, or settles nothing under an unknown policy or a non-positive payment |
| Allocation.EarlierBucketsComeFirst | pkg/core/allocation/allocation.go:134-207 | Money reaches a place of the order only once every bucket named before it is empty |
| Allocation.SplitAddsUpExactlyWhen | pkg/core/allocation/allocation.go:108-130 | The split totals the payment if and only if no money strays to a bucket code that does not exist |
| Allocation.UnknownBucketLosesTheSplit | pkg/core/allocation/allocation.go:108-130 | A concrete payment whose split does not total it |
| Allocation.PaymentLowersTheDebtExactlyWhen | pkg/core/allocation/allocation.go:134-207 | Debt falls by the payment less pending and unapplied if and only if the lender's credit is not taken: it is not ordered, not there, or not reached; otherwise it ends higher by twice the credit taken; no bucket goes negative |
| Allocation.OrderingTheCreditRaisesTheDebt | pkg/core/allocation/allocation.go:134-207 | A concrete order naming the advance credit raises the debt |
| Allocation.Buckets.With | pkg/core/model/buckets.go:106-128 | Setting one bucket sets it, leaves the others, and moves the total owed by the difference |
| PlanCache.CacheIsTransparent | internal/app/plancache.go:192-318 | Under any interleaving a returned answer is the computation's own, one computes at a time, one flight per key, and the bounds hold |
| PlanCache.HitsAreFresh | internal/app/plancache.go:192-215 | A caller is answered from the cache only with a report stored less than twenty-six hours before it asked |
| PlanCache.Store.Put | internal/app/plancache.go:244-257 | Storing keeps the byte count exact and both bounds; making room ends |
| PlanCache.Store.Evict | internal/app/plancache.go:299-318 | Eviction drops the expired, or else an oldest entry, and always makes progress |
| PlanCache.NextInv | internal/app/plancache.go:192-297 | Every step of every caller keeps the protocol invariant |
| Encoding.MessageIsInjective | internal/app/plancache.go:79-98 | Different questions are never encoded alike |
| Encoding.TokensArePrefixFree | internal/app/plancache.go:121-178 | A value and whatever follows it can be read back in one way only |
| Encoding.FramedIsPrefixFree | internal/app/plancache.go:105-113 | Length framing is uniquely decodable |
| Encoding.Sink.WriteValue | internal/app/plancache.go:121-178 | The recursive walk appends exactly the encoding of the value |
| Encoding.Fingerprint | internal/app/plancache.go:79-122 | Streaming block by block hands the hash exactly the concatenated message |
| Encoding.Sink.Token | internal/app/plancache.go:105-113 | Appending a token extends the encoding by its frame, across block flushes |
| MonthlyProjection.Build | pkg/core/projection/projection.go:110-327 | Every month adds up; each supported loan's opening debt plus interest over a gapless trail from its anchor is paid or still owed; months stop only at the horizon or when no loan is alive; a finish month is claimed exactly then with every loan supported and settled; the reason is the first gap; the months follow from one another, bank payments first and the extra dealt out after, over the loans taken up, a higher rate first, then the smaller opening balance, then the id |
| MonthlyProjection.Projector.RunMonths | pkg/core/projection/projection.go:202-325 | Months run until no loan has anything to come, and say which month that was |
| MonthlyProjection.Projector.RunMonth | pkg/core/projection/projection.go:202-325 | One month conserves each supported loan's debt with interest charged over consecutive days, extra plus unallocated is what was requested, and no loan is left with interest on nothing |
| MonthlyProjection.Projector.PayDue | pkg/core/projection/projection.go:229-250 | Exactly the instalment or all that is owed, interest first, with the interest of the contract from the day booked to the due date |
| MonthlyProjection.Projector.PayExtra | pkg/core/projection/projection.go:259-300 | Exactly what is owed when affordable, else whole units of principal with one kept back, charging the contract's interest to month-end |
| MonthlyProjection.Projector.RequiredPass | pkg/core/projection/projection.go:209-257 | Every live loan shows exactly its payment of the month, settled by it or not, and nothing else is shown |
| MonthlyProjection.Projector.ExtraPass | pkg/core/projection/projection.go:258-302 | Loan by loan in the order they stand, each eligible one takes all that it can absorb of what those before it left; the extra shown for each is what it took, and what is left over is unallocated |
| MonthlyProjection.DearerLoansComeFirst | pkg/core/projection/projection.go:191-200 | A loan gets extra only out of what every eligible loan with a higher rate left after absorbing all that it could |
| MonthlyProjection.OfferIsUsed | pkg/core/projection/projection.go:259-300 | An offer short of what is owed is used up to less than a unit, or leaves one unit of the balance |
| MonthlyProjection.StartMonth | pkg/core/projection/projection.go:170-190 | The projection starts this month, unless every loan's next due is known to lie later; then in the earliest such month |
| MonthlyProjection.SupportedLoansStartAsTheBankAsks | pkg/core/projection/projection.go:126-165 | A loan projected in full has a known due date that is not overdue, the bank's own where it names one, and pays the scheduled amount there in full |
| MonthlyProjection.OverdueExactlyWhen | pkg/core/projection/projection.go:134-140 | A loan is shown as overdue exactly when its known due date lies before today |
| MonthlyProjection.InterestIsAskedForExactlyWhen | pkg/core/projection/projection.go:130-133 | The accrued interest is asked for exactly where a rate runs on, the amount is not known and the loan did not start that day |
| MonthlyProjection.TakeUpAll | pkg/core/projection/projection.go:115-186 | Every loan is taken up in order with exactly the first reason one cannot be projected; refusals exact |
| MonthlyProjection.Add | pkg/core/projection/projection.go:329-334 | Checked addition within the exactly representable range |

## Left out

- Simulator.Run: totals are unbounded integers; an int64 overflow of a running total, which the source reports as an error, is not modelled.
- Simulator.Sim.BookInterest: interest is the exact rounded function; the refusals of accrual at the edge of int64 are proved in `Money` and not threaded through the simulator, schedules and ledger.
- Simulator.Sim.FitsExactlyWhen: a due before the valuation, which a position anchored far back can have, is not said to fit; a run loses the cover that `Simulator.Run` speaks of there, although such a due may still be met.
- Simulator.Sim.Refresh: the class projects afresh; `Flow` threads the memo through a run, and `MemoRun.RunIsHeard` makes every run with a memo a run of the class, over the input as heard.
- Dynamic.SearchDynamic: interest is the exact rounded function; an overflow is reported only where the search itself adds.
- Ladder.BudgetFor: the sum of the first instalments and the balance is unbounded; only the bound overflow the source tests for is modelled.
- Search.Universe.Simulate: policies that do not speak of every loan, which the source indexes past their end, are not simulated.
- PolicyIds.IdNamesOnePolicy: an id writes the minimum as a plain decimal, where the source writes the amount with its currency's own formatting; policies of one plan have one currency.
- Ranking.RankRuns: sorting is a stable insertion sort given by its specification; the library sort is not modelled.
- PlanCache.CacheIsTransparent: the hash is ideal, a context is a cancellation that may happen at any step, and time is a number the caller passes; metrics and the planner-wide permit are omitted.
- Loan states are values in a sequence that the methods reassign, so aliasing of pointers to one loan is not captured.
- Currencies and the panics for mixing them: every amount is in the plan's one currency.
- Positions without an anchor date, and dates in the first month of the calendar, are outside what is accepted.
- Saturation of day counts beyond the range of a duration.
- Reported actions, names, per-loan month rows, explanations, tie messages and the rendering of months: override and month keys are month indices.
- Stress replays with a delayed income, budget ladder rungs, the required-only baseline plan, release policies and spending-limit growth: thin callers of what is modelled.
- The sort keys of named strategies: their orders are given as permutations.
- Accrual over calendar-year spans and the actual/actual convention: nothing modelled here calls it.
- The reflection behind the structural key: values are trees of tokens, and well-formedness says that a type fixes the shape of its values.
