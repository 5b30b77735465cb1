/**
 What an optional payment costs and does. A quote never promises more than the cash it was
 asked about: that rests on the fee being monotone in the principal through allowances,
 clamps and two roundings.
 */
module Fees {
  import opened Dates
  import opened Contracts
  import Money

  const TWO_62: int := 0x4000_0000_0000_0000
  const BASIS: int := 10_000

  datatype Error = FeeOverflow | QuoteExceedsAllowance

  datatype Result<+T> = Ok(value: T) | Err(error: Error) {
    predicate IsFailure() { Err? }
    function PropagateFailure<U>(): Result<U> requires Err? { Err(error) }
    function Extract(): T requires Ok? { value }
  }

  /** The 1-based year of the contract a date falls in. */
  function ContractYear(c: Contract, on: Date): int {
    var y := on.y - c.start.y;
    if on.m < c.start.m || (on.m == c.start.m && on.d < c.start.d) then y else y + 1
  }

  /** Basis points of an amount, half up to the minor unit and then rounded as the lender does. */
  function BasisPoints(amount: nat, points: nat, p: Money.Policy): (r: Result<nat>)
    ensures r.Err? <==> amount > 0 && points > TWO_62 / amount
    ensures r.Err? ==> r.error == FeeOverflow
  {
    if amount > 0 && points > TWO_62 / amount then Err(FeeOverflow)
    else Ok(Money.Quantise(Money.Quotient(Money.Numerator(amount, points, 1) + BASIS / 2, BASIS), p))
  }

  /** A percentage fee is points in ten thousand of the amount, half up to the minor unit, then quantised. */
  lemma BasisPointsAreTenThousandths(amount: nat, points: nat, p: Money.Policy)
    requires BasisPoints(amount, points, p).Ok?
    ensures exists minor: nat ::
              && BasisPoints(amount, points, p) == Ok(Money.Quantise(minor, p))
              && -5_000 < 10_000 * minor - amount * points <= 5_000
  {
    var n := amount * points;
    var minor: nat := (n + 5_000) / 10_000;
    assert Money.Numerator(amount, points, 1) == n;
    assert BasisPoints(amount, points, p) == Ok(Money.Quantise(minor, p));
  }

  predicate Applies(r: Charge, year: int) {
    !(r.fromYear > 0 && year < r.fromYear) && !(r.throughYear > 0 && year > r.throughYear)
  }

  /** The part of a principal credit beyond what is left of the year's free allowance. */
  function Chargeable(r: Charge, principal: nat, used: int): nat {
    if r.freeAllowance > 0 && r.freeAllowance - used > 0 then
      (if principal > r.freeAllowance - used then principal - (r.freeAllowance - used) else 0)
    else principal
  }

  function Clamped(r: Charge, percent: nat): (fee: nat) {
    var fee := if r.fixed > 0 then percent + r.fixed else percent;
    var atLeast := if r.minCharge > 0 && fee < r.minCharge then r.minCharge else fee;
    if r.maxCharge > 0 && atLeast > r.maxCharge then r.maxCharge else atLeast
  }

  function RuleFee(r: Charge, principal: nat, used: int, p: Money.Policy): (fee: Result<nat>)
    ensures fee.Err? ==> fee.error == FeeOverflow
  {
    var chargeable := Chargeable(r, principal, used);
    var percent :- if r.percentBP > 0 && chargeable > 0 then BasisPoints(chargeable, r.percentBP, p) else Ok(0);
    Ok(Clamped(r, percent))
  }

  /**
   What one rule charges: nothing in proportion while the credit stays within the free allowance
   left, else the percentage of what exceeds it; the fixed part is added, the least charge lifts
   the sum and the greatest caps it.
   */
  lemma RuleFeeIs(r: Charge, principal: nat, used: int, p: Money.Policy, fee: nat)
    requires RuleFee(r, principal, used, p) == Ok(fee)
    ensures var free := if r.freeAllowance > 0 && r.freeAllowance > used then r.freeAllowance - used else 0;
            var over := if principal > free then principal - free else 0;
            exists percent: nat ::
              && (if r.percentBP <= 0 || over == 0 then percent == 0 else BasisPoints(over, r.percentBP, p) == Ok(percent))
              && (r.maxCharge > 0 ==> fee <= r.maxCharge)
              && (r.minCharge > 0 && (r.maxCharge <= 0 || r.minCharge <= r.maxCharge) ==> fee >= r.minCharge)
              && (var sum := percent + if r.fixed > 0 then r.fixed else 0;
                  (r.minCharge <= 0 || sum >= r.minCharge) && (r.maxCharge <= 0 || sum <= r.maxCharge) ==> fee == sum)
  {
    hide BasisPoints;
    var over := Chargeable(r, principal, used);
    var percent := if r.percentBP > 0 && over > 0 then BasisPoints(over, r.percentBP, p).value else 0;
    assert fee == Clamped(r, percent);
  }

  /** A list of rules charges the sum of what its rules charge, each in the contract years it runs from and through. */
  lemma RulesAddUp(rules: seq<Charge>, r: Charge, year: int, principal: nat, used: int, p: Money.Policy)
    ensures var before, after := RulesFee(rules, year, principal, used, p), RulesFee(rules + [r], year, principal, used, p);
            if before.Err? then after == before
            else if (r.fromYear > 0 && r.fromYear > year) || (r.throughYear > 0 && r.throughYear < year) then after == before
            else if RuleFee(r, principal, used, p).Err? then after.Err?
            else after == Ok(before.value + RuleFee(r, principal, used, p).value)
  {
    hide RuleFee;
    assert (rules + [r])[..|rules|] == rules;
  }

  /** A contract year runs from one anniversary of the start to the day before the next. */
  lemma ContractYearRunsBetweenAnniversaries(c: Contract, on: Date)
    requires IsSet(on) && IsSet(c.start)
    ensures var y := ContractYear(c, on);
            && !Earlier(on, c.start.y + y - 1, c.start.m, c.start.d)
            && Earlier(on, c.start.y + y, c.start.m, c.start.d)
  {
  }

  /** A date before a year, month and day, which need not be a date themselves. */
  predicate Earlier(d: Date, y: int, m: int, day: int) {
    d.y < y || (d.y == y && (d.m < m || (d.m == m && d.d < day)))
  }

  function RulesFee(rules: seq<Charge>, year: int, principal: nat, used: int, p: Money.Policy): (fee: Result<nat>)
    ensures fee.Err? ==> fee.error == FeeOverflow
  {
    if rules == [] then Ok(0)
    else
      var before :- RulesFee(rules[..|rules| - 1], year, principal, used, p);
      var r := rules[|rules| - 1];
      if !Applies(r, year) then Ok(before)
      else
        var fee :- RuleFee(r, principal, used, p);
        Ok(before + fee)
  }

  /** The fee on a principal credit: the dated rules when there are any, else the flat basis points. */
  function Fee(c: Contract, on: Date, principal: nat, used: int): (fee: Result<nat>)
    ensures fee.Err? ==> fee.error == FeeOverflow
  {
    var pp := c.prepayment;
    if pp.charges == [] then
      (if pp.feeBP <= 0 then Ok(0) else BasisPoints(principal, pp.feeBP, c.rounding))
    else RulesFee(pp.charges, ContractYear(c, on), principal, used, c.rounding)
  }

  method ChargeFor(c: Contract, on: Date, principal: nat, used: int) returns (r: Result<nat>)
    ensures r == Fee(c, on, principal, used)
  {
    var pp := c.prepayment;
    if |pp.charges| == 0 {
      if pp.feeBP <= 0 {
        return Ok(0);
      }
      return BasisPoints(principal, pp.feeBP, c.rounding);
    }
    var year := ContractYear(c, on);
    var total: nat := 0;
    var rules := pp.charges;
    for i := 0 to |rules|
      invariant RulesFee(rules[..i], year, principal, used, c.rounding) == Ok(total)
    {
      assert rules[..i + 1][..i] == rules[..i];
      var rule := rules[i];
      if Applies(rule, year) {
        var fee := RuleFee(rule, principal, used, c.rounding);
        if fee.Err? {
          ErrorStays(rules, i + 1, year, principal, used, c.rounding);
          return Err(fee.error);
        }
        total := total + fee.value;
      }
    }
    assert rules[..|rules|] == rules;
    return Ok(total);
  }

  lemma {:induction false} ErrorStays(rules: seq<Charge>, k: nat, year: int, principal: nat, used: int, p: Money.Policy)
    requires k <= |rules| && RulesFee(rules[..k], year, principal, used, p).Err?
    ensures RulesFee(rules, year, principal, used, p) == RulesFee(rules[..k], year, principal, used, p)
    decreases |rules|
  {
    if k < |rules| {
      assert rules[..|rules| - 1][..k] == rules[..k];
      ErrorStays(rules[..|rules| - 1], k, year, principal, used, p);
    } else {
      assert rules[..k] == rules;
    }
  }

  // ---------- Monotonicity ----------

  lemma BasisPointsAreMonotone(a: nat, b: nat, points: nat, p: Money.Policy)
    requires a <= b && BasisPoints(b, points, p).Ok?
    ensures BasisPoints(a, points, p).Ok? && BasisPoints(a, points, p).value <= BasisPoints(b, points, p).value
  {
    if a > 0 {
      Money.MulNoOverflowIsExact(points, a);
      DivisorGrows(TWO_62, a, b);
    }
    Money.NumeratorIsMonotone(a, points, 1, b, points, 1);
    var m, n := Money.Numerator(a, points, 1) + BASIS / 2, Money.Numerator(b, points, 1) + BASIS / 2;
    assert m / BASIS <= n / BASIS;
    Money.QuantiseIsMonotone(m / BASIS, n / BASIS, p);
  }

  lemma DivisorGrows(x: nat, a: nat, b: nat)
    requires 0 < a <= b
    ensures x / b <= x / a
  {
    Money.MulMonotone(a, b, x / b);
    Money.DivisionAtLeast(x, a, x / b);
  }

  lemma RuleFeeIsMonotone(r: Charge, principal: nat, principal': nat, used: int, p: Money.Policy)
    requires principal <= principal' && RuleFee(r, principal', used, p).Ok?
    ensures RuleFee(r, principal, used, p).Ok?
    ensures RuleFee(r, principal, used, p).value <= RuleFee(r, principal', used, p).value
  {
    hide BasisPoints;
    var a, b := Chargeable(r, principal, used), Chargeable(r, principal', used);
    assert a <= b;
    if r.percentBP > 0 && a > 0 {
      BasisPointsAreMonotone(a, b, r.percentBP, p);
    }
  }

  lemma {:induction false} RulesFeeIsMonotone(rules: seq<Charge>, year: int, principal: nat, principal': nat, used: int,
                                              p: Money.Policy)
    requires principal <= principal' && RulesFee(rules, year, principal', used, p).Ok?
    ensures RulesFee(rules, year, principal, used, p).Ok?
    ensures RulesFee(rules, year, principal, used, p).value <= RulesFee(rules, year, principal', used, p).value
  {
    hide RuleFee;
    if rules != [] {
      RulesFeeIsMonotone(rules[..|rules| - 1], year, principal, principal', used, p);
      if Applies(rules[|rules| - 1], year) {
        RuleFeeIsMonotone(rules[|rules| - 1], principal, principal', used, p);
      }
    }
  }

  /** Crediting less principal never costs a larger fee, and never overflows when more did not. */
  lemma FeeIsMonotone(c: Contract, on: Date, principal: nat, principal': nat, used: int)
    requires principal <= principal' && Fee(c, on, principal', used).Ok?
    ensures Fee(c, on, principal, used).Ok?
    ensures Fee(c, on, principal, used).value <= Fee(c, on, principal', used).value
  {
    hide BasisPoints;
    if c.prepayment.charges != [] {
      RulesFeeIsMonotone(c.prepayment.charges, ContractYear(c, on), principal, principal', used, c.rounding);
    } else if c.prepayment.feeBP > 0 {
      BasisPointsAreMonotone(principal, principal', c.prepayment.feeBP, c.rounding);
    }
  }

  // ---------- Quotes ----------

  /** What an optional payment would do: the principal it credits, the interest and fee it pays. */
  datatype Quote = Quote(principal: nat, interest: nat, fee: nat, outflow: nat, closes: bool)

  const NOTHING: Quote := Quote(0, 0, 0, 0, false)

  /** The cash that settles a loan today: balance, accrued interest and the fee on the balance. */
  function PayOff(c: Contract, on: Date, balance: nat, accrued: nat, used: int): Result<nat> {
    var fee :- Fee(c, on, balance, used);
    Ok(balance + accrued + fee)
  }

  /** The lender's answer to "what would paying up to `available` on this date do". */
  function QuoteFor(c: Contract, on: Date, balance: nat, accrued: nat, used: int, available: nat): Result<Quote> {
    var closeFee :- Fee(c, on, balance, used);
    var closeOut := balance + accrued + closeFee;
    var least := c.prepayment.minAmount;
    if available >= closeOut then Ok(Quote(balance, accrued, closeFee, closeOut, true))
    else if least > 0 && available < least then Ok(NOTHING)
    else
      var wholeFee :- Fee(c, on, available, used);
      var room := if available - wholeFee > balance then balance else available - wholeFee;
      var principal := Money.Quantise(room, Money.Policy(Money.Down, c.rounding.unit));
      if principal <= 0 || (least > 0 && principal < least) then Ok(NOTHING)
      else
        var fee :- Fee(c, on, principal, used);
        if principal + fee > available then Err(QuoteExceedsAllowance)
        else Ok(Quote(principal, 0, fee, principal + fee, false))
  }

  /**
   A quote stays within its allowance and the balance, adds up, closes the loan exactly when
   the allowance covers the pay-off, and a partial one settles no interest. The branch that
   reports an allowance overrun is never taken.
   */
  lemma QuoteStaysWithinAllowance(c: Contract, on: Date, balance: nat, accrued: nat, used: int, available: nat)
    ensures var r := QuoteFor(c, on, balance, accrued, used, available);
            && r != Err(QuoteExceedsAllowance)
            && (r.Ok? ==>
                  var q := r.value;
                  && q.outflow == q.principal + q.interest + q.fee && q.outflow <= available
                  && q.principal <= balance
                  && PayOff(c, on, balance, accrued, used).Ok?
                  && (q.closes <==> available >= PayOff(c, on, balance, accrued, used).value)
                  && (q.closes ==> q.principal == balance && q.interest == accrued)
                  && (!q.closes ==> q.interest == 0 && (q.principal == 0 ==> q == NOTHING))
                  && (q.principal > 0 ==> Fee(c, on, q.principal, used) == Ok(q.fee)))
  {
    hide Fee;
    var closeFee := Fee(c, on, balance, used);
    var whole := Fee(c, on, available, used);
    if closeFee.Ok? && whole.Ok? && available < balance + accrued + closeFee.value {
      var room := if available - whole.value > balance then balance else available - whole.value;
      var principal := Money.Quantise(room, Money.Policy(Money.Down, c.rounding.unit));
      if principal > 0 {
        assert principal <= room <= available;
        FeeIsMonotone(c, on, principal, available, used);
      }
    }
  }

  /**
   A quote that leaves the loan open uses its allowance: what it leaves of the smaller of the
   balance and the allowance less its own fee is less than a settlement unit, unless it is
   smaller than the lender's minimum, and then nothing is quoted.
   */
  lemma QuoteUsesItsAllowance(c: Contract, on: Date, balance: nat, accrued: nat, used: int, available: nat)
    requires var r := QuoteFor(c, on, balance, accrued, used, available); r.Ok? && !r.value.closes
    ensures var q, least := QuoteFor(c, on, balance, accrued, used, available).value, c.prepayment.minAmount;
            if least > 0 && available < least then q == NOTHING
            else
              && Fee(c, on, available, used).Ok?
              && (var net := available - Fee(c, on, available, used).value;
                  var room := if net > balance then balance else net;
                  if room <= 0 then q == NOTHING
                  else
                    || (q.principal <= room < q.principal + c.rounding.Unit() && (least > 0 ==> q.principal == 0 || q.principal >= least))
                    || (q == NOTHING && least > 0 && room < least + c.rounding.Unit()))
  {
    hide Fee;
  }

  /** With no interest accrued, a partial payment never empties the balance it leaves open. */
  lemma PartialPaymentLeavesABalance(c: Contract, on: Date, balance: nat, used: int, available: nat)
    requires var r := QuoteFor(c, on, balance, 0, used, available); r.Ok? && !r.value.closes && r.value.outflow > 0
    ensures QuoteFor(c, on, balance, 0, used, available).value.principal < balance
  {
    hide Fee;
    QuoteStaysWithinAllowance(c, on, balance, 0, used, available);
    var q := QuoteFor(c, on, balance, 0, used, available).value;
  }

  /** Partial principal is a whole number of settlement units. */
  lemma PartialPrincipalIsAligned(c: Contract, on: Date, balance: nat, accrued: nat, used: int, available: nat)
    requires var r := QuoteFor(c, on, balance, accrued, used, available); r.Ok? && !r.value.closes
    ensures QuoteFor(c, on, balance, accrued, used, available).value.principal % c.rounding.Unit() == 0
  {
    hide Fee;
  }

  /**
   A quote takes the whole balance and still leaves the loan open if and only if the balance is
   payable in whole units and meets the lender's minimum, and the allowance, which falls short of
   the pay-off, covers the balance beside its own fee: only interest or the closing fee is missing.
   */
  lemma BalanceEmptiesWithoutClosingExactlyWhen(c: Contract, on: Date, balance: nat, accrued: nat, used: int, available: nat)
    requires balance > 0
    ensures var r := QuoteFor(c, on, balance, accrued, used, available);
            r.Ok? && r.value.principal == balance && !r.value.closes
            <==>
            && Money.Quantise(balance, Money.Policy(Money.Down, c.rounding.unit)) == balance
            && c.prepayment.minAmount <= balance
            && PayOff(c, on, balance, accrued, used).Ok? && available < PayOff(c, on, balance, accrued, used).value
            && Fee(c, on, available, used).Ok? && available - Fee(c, on, available, used).value >= balance
  {
    hide Fee;
    var down := Money.Policy(Money.Down, c.rounding.unit);
    var whole := Fee(c, on, available, used);
    QuoteStaysWithinAllowance(c, on, balance, accrued, used, available);
    if whole.Ok? && 0 <= available - whole.value < balance {
      Money.QuantiseIsMonotone(available - whole.value, balance, down);
    }
  }

  /** A loan without fees or minima. */
  const FREE: Contract := Contract("free", 1, "AMD", UNSET, UNSET, 0, Money.Actual365, Annuity, Civil(2024, 1, 15), Civil(2024, 3, 15),
    15, UNSET, 2, true, Money.Policy(Money.Down, 1), Prepayment(ShortenTerm, 0, [], 0), "")

  /** With two owed beside three of interest, an allowance of two takes the balance and leaves the loan open. */
  lemma QuoteEmptiesTheBalance(on: Date)
    ensures QuoteFor(FREE, on, 2, 3, 0, 2) == Ok(Quote(2, 0, 0, 2, false))
  {
  }
}
