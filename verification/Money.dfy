/**
 Integer money: signed 64-bit minor units, the rounding policies of a lender, and
 interest accrual. Every other module of the engine reasons about `Interest`, the exact
 rounded value; this module proves which 64- and 128-bit computations reach it.
 */
module Money {

  const MAX_INT64: int := 0x7FFF_FFFF_FFFF_FFFF
  const MIN_INT64: int := -0x8000_0000_0000_0000
  const TWO_63: int := 0x8000_0000_0000_0000
  const TWO_64: int := 0x1_0000_0000_0000_0000
  const RATE_PPB: int := 1_000_000_000

  /** How a value between two representable results is resolved. */
  datatype Mode = HalfUp | HalfEven | Down | Up

  /** A lender's rounding: the mode and the settlement unit in minor units. */
  datatype Policy = Policy(mode: Mode, unit: int) {
    function Unit(): (u: int)
      ensures u >= 1
      ensures unit >= 1 ==> u == unit
    {
      if unit < 1 then 1 else unit
    }
  }

  datatype DayCount = Actual365 | Actual360 | Thirty360 | ActualActual {
    function Denominator(): (d: int)
      ensures d == 360 || d == 365
    {
      match this
      case Actual360 => 360
      case Thirty360 => 360
      case _ => 365
    }
  }

  datatype Error = Overflow | AccrualRange | Negative

  datatype Result<+T> = Ok(value: T) | Err(error: Error) {
    predicate IsFailure() { Err? }

    function PropagateFailure<U>(): Result<U>
      requires Err?
    {
      Err(error)
    }

    function Extract(): T
      requires Ok?
    {
      value
    }
  }

  predicate InInt64(x: int) {
    MIN_INT64 <= x <= MAX_INT64
  }

  /** Two's-complement truncation to 64 bits. */
  function Wrap(x: int): (w: int)
    ensures InInt64(w)
    ensures InInt64(x) ==> w == x
    ensures exists k: int :: w == x + k * TWO_64
  {
    var m := x % TWO_64;
    assert x == x / TWO_64 * TWO_64 + m;
    assert m == x + (-(x / TWO_64)) * TWO_64;
    assert m - TWO_64 == x + (-(x / TWO_64) - 1) * TWO_64;
    if m > MAX_INT64 then m - TWO_64 else m
  }

  // ---------- Checked addition and subtraction ----------

  /** Addition as the machine performs it, followed by the sign test for overflow. */
  function Add(a: int, b: int): (r: Result<int>)
    requires InInt64(a) && InInt64(b)
  {
    var sum := Wrap(a + b);
    if (a > 0 && b > 0 && sum < 0) || (a < 0 && b < 0 && sum >= 0) then Err(Overflow) else Ok(sum)
  }

  function Sub(a: int, b: int): (r: Result<int>)
    requires InInt64(a) && InInt64(b)
  {
    var diff := Wrap(a - b);
    if (b < 0 && diff < a) || (b > 0 && diff > a) then Err(Overflow) else Ok(diff)
  }

  /** The sign tests detect exactly the sums and differences that leave 64 bits. */
  lemma CheckedArithmeticIsExact(a: int, b: int)
    requires InInt64(a) && InInt64(b)
    ensures Add(a, b) == if InInt64(a + b) then Ok(a + b) else Err(Overflow)
    ensures Sub(a, b) == if InInt64(a - b) then Ok(a - b) else Err(Overflow)
  {
    WrapOnce(a + b);
    WrapOnce(a - b);
  }

  lemma WrapOnce(x: int)
    requires MIN_INT64 - TWO_63 <= x <= MAX_INT64 + TWO_63
    ensures Wrap(x) == if x > MAX_INT64 then x - TWO_64 else if x < MIN_INT64 then x + TWO_64 else x
  {
    if x < 0 {
      assert x % TWO_64 == x + TWO_64;
    } else if x >= TWO_64 {
      assert false;
    } else {
      assert x % TWO_64 == x;
    }
  }

  // ---------- Rounding ----------

  /** `r` is `n / d` rounded under `mode`; the definition no code here computes with. */
  ghost predicate IsRounded(n: int, d: int, mode: Mode, r: int)
    requires d > 0
  {
    match mode
    case Down => r * d <= n < r * d + d
    case Up => r * d - d < n <= r * d
    case HalfUp => 2 * (r * d) - d <= 2 * n < 2 * (r * d) + d
    case HalfEven =>
      && 2 * (r * d) - d <= 2 * n <= 2 * (r * d) + d
      && (2 * n == 2 * (r * d) - d || 2 * n == 2 * (r * d) + d ==> r % 2 == 0)
  }

  /** A rounded value is unique, and a larger numerator never rounds to a smaller value. */
  lemma RoundingIsMonotone(n: int, n': int, d: int, mode: Mode, r: int, r': int)
    requires d > 0 && n <= n'
    requires IsRounded(n, d, mode, r) && IsRounded(n', d, mode, r')
    ensures r <= r'
  {
    if r > r' {
      assert r * d >= (r' + 1) * d == r' * d + d by { MulMonotone(r' + 1, r, d); }
      if mode == HalfEven {
        if r > r' + 1 {
          MulMonotone(r' + 2, r, d);
          assert false;
        }
      }
    }
  }

  lemma MulMonotone(a: int, b: int, d: int)
    requires a <= b && d >= 0
    ensures a * d <= b * d
  {
    assert (b - a) * d >= 0;
  }

  /** The quotient adjusted for its remainder, over unbounded integers. */
  function RoundQuotient(quo: int, rem: int, div: int, mode: Mode): int {
    if rem == 0 then quo
    else
      match mode
      case Down => quo
      case Up => quo + 1
      case HalfEven =>
        if rem * 2 > div then quo + 1
        else if rem * 2 < div then quo
        else if quo % 2 != 0 then quo + 1 else quo
      case HalfUp => if rem * 2 >= div then quo + 1 else quo
  }

  /** The same adjustment on 64-bit registers, where doubling and incrementing wrap. */
  function RoundQuotient64(quo: int, rem: int, div: int, mode: Mode): int {
    if rem == 0 then quo
    else
      match mode
      case Down => quo
      case Up => Wrap(quo + 1)
      case HalfEven =>
        if Wrap(rem * 2) > div then Wrap(quo + 1)
        else if Wrap(rem * 2) < div then quo
        else if quo % 2 != 0 then Wrap(quo + 1) else quo
      case HalfUp => if Wrap(rem * 2) >= div then Wrap(quo + 1) else quo
  }

  function Quotient(n: nat, d: int): (q: nat)
    requires d > 0
    ensures q == n / d
  {
    assert n == n / d * d + n % d;
    n / d
  }

  function Remainder(n: nat, d: int): (r: nat)
    requires d > 0
    ensures r < d && r == n % d && n == Quotient(n, d) * d + r
  {
    n % d
  }

  /** `n / d` rounded, for a non-negative numerator. */
  function Rounded(n: int, d: int, mode: Mode): (r: int)
    requires n >= 0 && d > 0
    ensures IsRounded(n, d, mode, r)
    ensures r >= 0
  {
    var quo, rem := Quotient(n, d), Remainder(n, d);
    assert (quo + 1) * d == quo * d + d;
    RoundQuotient(quo, rem, d, mode)
  }

  lemma RoundedIsMonotone(n: int, n': int, d: int, mode: Mode)
    requires 0 <= n <= n' && d > 0
    ensures Rounded(n, d, mode) <= Rounded(n', d, mode)
  {
    RoundingIsMonotone(n, n', d, mode, Rounded(n, d, mode), Rounded(n', d, mode));
  }

  /** In the half modes the rounded value is within half a divisor of the numerator. */
  lemma HalfModesErrByHalf(n: int, d: int, mode: Mode)
    requires n >= 0 && d > 0 && (mode == HalfUp || mode == HalfEven)
    ensures -d <= 2 * (Rounded(n, d, mode) * d - n) <= d
  {
    assert IsRounded(n, d, mode, Rounded(n, d, mode));
  }

  // ---------- Quantisation ----------

  /** An amount rounded, away from its sign, to the policy's settlement unit. */
  function Quantise(a: int, p: Policy): (q: int)
    ensures q % p.Unit() == 0 || p.Unit() == 1
    ensures a >= 0 ==> q >= 0
    ensures p.mode == Down && a >= 0 ==> q <= a < q + p.Unit()
    ensures p.mode == Down && a <= 0 ==> a <= q <= 0
  {
    var unit := p.Unit();
    if unit == 1 then a
    else
      var v := if a < 0 then -a else a;
      var r := Rounded(v, unit, p.mode);
      MultipleOfUnit(r, unit);
      if a < 0 then -(r * unit) else r * unit
  }

  /** Away from its sign an amount is rounded, in the policy's mode, to a whole number of units; a unit of one changes nothing. */
  lemma QuantiseRounds(a: int, p: Policy)
    ensures var unit := if p.unit < 1 then 1 else p.unit;
            var size := if a < 0 then -a else a;
            exists units: nat ::
              && Quantise(a, p) == (if a < 0 then -(units * unit) else units * unit)
              && IsRounded(size, unit, p.mode, units)
  {
    var unit := if p.unit < 1 then 1 else p.unit;
    var size := if a < 0 then -a else a;
    var units := Rounded(size, unit, p.mode);
    if unit == 1 {
      assert size / 1 == size && size % 1 == 0;
      assert units == size;
    }
  }

  lemma MultipleOfUnit(k: int, unit: int)
    requires unit > 0
    ensures (k * unit) % unit == 0 && (-(k * unit)) % unit == 0
    ensures k >= 0 ==> k * unit >= 0
    ensures (k * unit) / unit == k
  {
    ModMultiple(k, unit);
    ModMultiple(-k, unit);
    assert -(k * unit) == (-k) * unit;
  }

  lemma MultiplesAdd(a: int, b: int, q: int)
    requires q > 0 && a % q == 0 && b % q == 0
    ensures (a + b) % q == 0
  {
    MultiplesSubtract(0, b, q);
    MultiplesSubtract(a, -b, q);
  }

  lemma MultiplesSubtract(a: int, b: int, q: int)
    requires q > 0 && a % q == 0 && b % q == 0
    ensures (a - b) % q == 0
  {
    var m, n := a / q, b / q;
    DivMod(a, q);
    DivMod(b, q);
    Factor(m, n, q);
    ModMultiple(m - n, q);
  }

  lemma DivMod(a: int, q: int)
    requires q > 0
    ensures a == (a / q) * q + a % q
  {
  }

  lemma Factor(m: int, n: int, q: int)
    ensures (m - n) * q == m * q - n * q
  {
  }

  lemma ModMultiple(k: int, unit: int)
    requires unit > 0
    ensures (k * unit) % unit == 0
    ensures (k * unit) / unit == k
  {
    var q, r := (k * unit) / unit, (k * unit) % unit;
    assert k * unit == q * unit + r;
    assert (k - q) * unit == r;
    if k - q >= 1 {
      MulMonotone(1, k - q, unit);
    } else if k - q <= -1 {
      MulMonotone(k - q, -1, unit);
    }
  }

  lemma QuantiseIsMonotone(a: int, b: int, p: Policy)
    requires 0 <= a <= b
    ensures Quantise(a, p) <= Quantise(b, p)
  {
    var unit := p.Unit();
    RoundedIsMonotone(a, b, unit, p.mode);
    MulMonotone(Rounded(a, unit, p.mode), Rounded(b, unit, p.mode), unit);
  }

  // ---------- Accrual ----------

  /** principal x rate x days, the numerator of an accrual. */
  function Numerator(principal: nat, rate: nat, days: nat): (n: nat)
  {
    principal * days * rate
  }

  /** The divisor of an accrual: days in the year, parts per billion, minor units a unit. */
  function Divisor(dc: DayCount, p: Policy): (d: int)
    ensures 0 < d && 360_000_000_000 * p.Unit() <= d <= 365_000_000_000 * p.Unit()
  {
    dc.Denominator() * RATE_PPB * p.Unit()
  }

  /** Interest as the documentation defines it: one division, one rounding, in whole units. */
  function Interest(principal: nat, rate: nat, days: nat, dc: DayCount, p: Policy): (i: nat)
    ensures i % p.Unit() == 0
    ensures principal == 0 || rate == 0 || days == 0 ==> i == 0
  {
    var div := Divisor(dc, p);
    var n := Numerator(principal, rate, days);
    var units := Rounded(n, div, p.mode);
    MultipleOfUnit(units, p.Unit());
    assert principal == 0 || rate == 0 || days == 0 ==> n == 0;
    assert n == 0 ==> units == 0;
    units * p.Unit()
  }

  /**
   Interest in every convention: principal x rate x days over the convention's own year, in parts
   per billion, rounded once to whole settlement units. A year has 360 days under actual/360 and
   30/360, and 365 under the others.
   */
  lemma InterestIsTheYearsShare(principal: nat, rate: nat, days: nat, dc: DayCount, p: Policy)
    ensures var year := if dc == Actual360 || dc == Thirty360 then 360 else 365;
            var unit := if p.unit < 1 then 1 else p.unit;
            exists units: nat ::
              && Interest(principal, rate, days, dc, p) == units * unit
              && IsRounded(principal * rate * days, year * 1_000_000_000 * unit, p.mode, units)
  {
    var year := if dc == Actual360 || dc == Thirty360 then 360 else 365;
    var unit := if p.unit < 1 then 1 else p.unit;
    assert Divisor(dc, p) == year * 1_000_000_000 * unit;
    RateLast(principal, rate, days);
    var units := Rounded(principal * rate * days, year * 1_000_000_000 * unit, p.mode);
    assert Interest(principal, rate, days, dc, p) == units * unit;
  }

  lemma RateLast(principal: nat, rate: nat, days: nat)
    ensures Numerator(principal, rate, days) == principal * rate * days
  {
    Regroup(days, principal, rate);
  }

  /** Over a whole year of its convention a principal earns principal x rate, rounded once. */
  lemma AYearEarnsTheRate(principal: nat, rate: nat, dc: DayCount, p: Policy)
    ensures var year := if dc == Actual360 || dc == Thirty360 then 360 else 365;
            var unit := if p.unit < 1 then 1 else p.unit;
            exists units: nat ::
              && Interest(principal, rate, year, dc, p) == units * unit
              && IsRounded(principal * rate, RATE_PPB * unit, p.mode, units)
  {
    hide Interest, IsRounded;
    var year := if dc == Actual360 || dc == Thirty360 then 360 else 365;
    var unit := if p.unit < 1 then 1 else p.unit;
    InterestIsTheYearsShare(principal, rate, year, dc, p);
    var units: nat :| && Interest(principal, rate, year, dc, p) == units * unit
                      && IsRounded(principal * rate * year, year * 1_000_000_000 * unit, p.mode, units);
    assert year * 1_000_000_000 * unit == RATE_PPB * unit * year;
    CommonFactor(principal * rate, RATE_PPB * unit, year, p.mode, units);
  }

  /** A common factor of numerator and divisor changes no rounding. */
  lemma CommonFactor(n: int, d: int, k: int, mode: Mode, r: int)
    requires d > 0 && k > 0 && d * k > 0 && IsRounded(n * k, d * k, mode, r)
    ensures IsRounded(n, d, mode, r)
  {
    var m := r * d;
    assert r * (d * k) == m * k;
    match mode
    case Down =>
      AtMostScaled(m, n, 0, k);
      LessScaled(n, m, d, k);
    case Up =>
      LessScaled(m, n, d, k);
      AtMostScaled(n, m, 0, k);
    case _ =>
      Twice(n, m, k);
      AtMostScaled(2 * m, 2 * n, d, k);
      AtMostScaled(2 * n, 2 * m, d, k);
      LessScaled(2 * n, 2 * m, d, k);
  }

  lemma Twice(a: int, b: int, k: int)
    ensures (2 * a) * k == 2 * (a * k) && (2 * b) * k == 2 * (b * k)
  {
  }

  lemma AtMostScaled(a: int, b: int, e: int, k: int)
    requires k > 0
    ensures a <= b + e <==> a * k <= b * k + e * k
    ensures e == 0 ==> e * k == 0
  {
    assert (b + e) * k == b * k + e * k;
    ScaleDown(a, b + e, k);
  }

  lemma LessScaled(a: int, b: int, d: int, k: int)
    requires k > 0
    ensures a < b + d <==> a * k < b * k + d * k
  {
    assert (b + d) * k == b * k + d * k;
    ScaleDown(a, b + d, k);
  }

  lemma ScaleDown(a: int, b: int, k: int)
    requires k > 0
    ensures a * k < b * k <==> a < b
    ensures a * k == b * k <==> a == b
  {
    if a < b {
      MulMonotone(a + 1, b, k);
    } else {
      MulMonotone(b, a, k);
      if a > b {
        MulMonotone(b + 1, a, k);
      }
    }
  }

  lemma NumeratorIsMonotone(principal: nat, rate: nat, days: nat, principal': nat, rate': nat, days': nat)
    requires principal <= principal' && rate <= rate' && days <= days'
    ensures Numerator(principal, rate, days) <= Numerator(principal', rate', days')
  {
    MulMonotone(principal, principal', days);
    MulMonotone(days, days', principal');
    assert principal * days <= principal' * days';
    MulMonotone(principal * days, principal' * days', rate);
    MulMonotone(rate, rate', principal' * days');
  }

  /** Interest never falls when the principal, the rate or the number of days grows. */
  lemma InterestIsMonotone(principal: nat, rate: nat, days: nat, principal': nat, rate': nat, days': nat,
                           dc: DayCount, p: Policy)
    requires principal <= principal' && rate <= rate' && days <= days'
    ensures Interest(principal, rate, days, dc, p) <= Interest(principal', rate', days', dc, p)
  {
    var div := Divisor(dc, p);
    var n, n' := Numerator(principal, rate, days), Numerator(principal', rate', days');
    NumeratorIsMonotone(principal, rate, days, principal', rate', days');
    RoundedIsMonotone(n, n', div, p.mode);
    MulMonotone(Rounded(n, div, p.mode), Rounded(n', div, p.mode), p.Unit());
  }

  /** In the half modes, scaled interest is within half a unit of the exact figure. */
  lemma InterestErrsByHalfAUnit(principal: nat, rate: nat, days: nat, dc: DayCount, p: Policy)
    requires p.mode == HalfUp || p.mode == HalfEven
    ensures var year := dc.Denominator() * RATE_PPB;
            -(year * p.Unit())
              <= 2 * (year * Interest(principal, rate, days, dc, p) - Numerator(principal, rate, days))
              <= year * p.Unit()
  {
    var n := Numerator(principal, rate, days);
    assert Divisor(dc, p) == dc.Denominator() * RATE_PPB * p.Unit();
    ScaledRounding(n, dc.Denominator() * RATE_PPB, p.Unit(), p.mode);
  }

  lemma ScaledRounding(n: nat, year: int, unit: int, mode: Mode)
    requires year > 0 && unit > 0 && year * unit > 0 && (mode == HalfUp || mode == HalfEven)
    ensures -(year * unit) <= 2 * (year * (Rounded(n, year * unit, mode) * unit) - n) <= year * unit
  {
    HalfModesErrByHalf(n, year * unit, mode);
    Regroup(year, Rounded(n, year * unit, mode), unit);
  }

  lemma Regroup(a: int, b: int, c: int)
    ensures a * (b * c) == b * (a * c)
  {
  }

  /** Multiplication refused when the product leaves 64 bits; both factors are positive here. */
  function MulNoOverflow(a: int, b: int): Result<int>
  {
    if a == 0 || b == 0 then Ok(0)
    else if a < 0 || b < 0 then Err(AccrualRange)
    else if a > MAX_INT64 / b then Err(AccrualRange)
    else Ok(a * b)
  }

  lemma MulNoOverflowIsExact(a: int, b: int)
    requires a >= 0 && b > 0
    ensures a <= MAX_INT64 / b <==> a * b <= MAX_INT64
    ensures MulNoOverflow(a, b) == if a * b <= MAX_INT64 then Ok(a * b) else Err(AccrualRange)
  {
    var q, r := MAX_INT64 / b, MAX_INT64 % b;
    assert MAX_INT64 == q * b + r;
    if a <= q {
      MulMonotone(a, q, b);
    } else {
      MulMonotone(q + 1, a, b);
      assert (q + 1) * b == q * b + b;
    }
  }

  /**
   Interest in 64- and 128-bit registers. The product of `principal x days` and the rate
   is held as two 64-bit halves; the division is refused when the quotient would not fit
   64 bits, and every later step is a 64-bit operation that may wrap.
   */
  method Accrue(principal: int, rate: int, days: int, dc: DayCount, p: Policy) returns (r: Result<int>)
    requires InInt64(principal) && InInt64(rate) && InInt64(days) && InInt64(p.unit)
    ensures r == AccrueRegisters(principal, rate, days, dc, p)
    ensures principal < 0 || rate < 0 || days < 0 ==> r.Err?
    ensures Representable(principal, rate, days, dc, p)
            && (var n, div := Numerator(principal, rate, days), Divisor(dc, p);
                !RoundingWraps(Quotient(n, div), Remainder(n, div), div, p.mode)) ==>
              var exact := Interest(principal, rate, days, dc, p);
              r == if exact <= MAX_INT64 then Ok(exact) else Err(AccrualRange)
  {
    if Representable(principal, rate, days, dc, p) {
      AccrueNeverWrapsExactlyWhen(principal, rate, days, dc, p);
    }
    if days < 0 {
      return Err(AccrualRange);
    }
    if principal < 0 {
      return Err(Negative);
    }
    if rate < 0 {
      return Err(AccrualRange);
    }
    if days == 0 || rate == 0 || principal == 0 {
      return Ok(0);
    }
    if principal > MAX_INT64 / days {
      return Err(AccrualRange);
    }
    var product := Numerator(principal, rate, days);
    var hi, lo := product / TWO_64, product % TWO_64;
    var unit := p.Unit();
    var year := MulNoOverflow(dc.Denominator(), RATE_PPB);
    if year.Err? {
      return Err(AccrualRange);
    }
    var scaled := MulNoOverflow(year.value, unit);
    if scaled.Err? {
      return Err(AccrualRange);
    }
    var div := scaled.value;
    if hi >= div {
      return Err(AccrualRange);
    }
    var quo, rem := Quotient(hi * TWO_64 + lo, div), Remainder(hi * TWO_64 + lo, div);
    if quo > MAX_INT64 / unit {
      return Err(AccrualRange);
    }
    var units := RoundQuotient64(quo, rem, div, p.mode);
    if units > MAX_INT64 / unit {
      return Err(AccrualRange);
    }
    return Ok(Wrap(units * unit));
  }

  /** The value of `Accrue`, with the two register halves already recombined. */
  function AccrueRegisters(principal: int, rate: int, days: int, dc: DayCount, p: Policy): Result<int>
    requires InInt64(principal) && InInt64(rate) && InInt64(days)
  {
    if days < 0 then Err(AccrualRange)
    else if principal < 0 then Err(Negative)
    else if rate < 0 then Err(AccrualRange)
    else if days == 0 || rate == 0 || principal == 0 then Ok(0)
    else if principal > MAX_INT64 / days then Err(AccrualRange)
    else
      var unit, year := p.Unit(), dc.Denominator() * RATE_PPB;
      if year > MAX_INT64 / unit then Err(AccrualRange)
      else
        var n, div := Numerator(principal, rate, days), Divisor(dc, p);
        if n / TWO_64 >= div then Err(AccrualRange)
        else Settle(Quotient(n, div), Remainder(n, div), div, unit, p.mode)
  }

  /** The guarded tail of an accrual: from quotient and remainder to a multiple of the unit. */
  function Settle(quo: nat, rem: nat, div: int, unit: int, mode: Mode): Result<int>
    requires unit > 0
  {
    if quo > MAX_INT64 / unit then Err(AccrualRange)
    else
      var units := RoundQuotient64(quo, rem, div, mode);
      if units > MAX_INT64 / unit then Err(AccrualRange) else Ok(Wrap(units * unit))
  }

  const TWO_62: int := 0x4000_0000_0000_0000

  /** The operands `Accrue` does not refuse by sign, and whose first products fit. */
  predicate Representable(principal: int, rate: int, days: int, dc: DayCount, p: Policy)
  {
    && 0 <= principal <= MAX_INT64 && 0 <= rate <= MAX_INT64 && 0 <= days <= MAX_INT64
    && principal * days <= MAX_INT64
    && Divisor(dc, p) <= MAX_INT64
  }

  /**
   The two 64-bit steps that are not guarded: doubling a remainder of 2^62 or more in a
   half mode, and incrementing a quotient that already is the largest int64.
   */
  predicate RoundingWraps(quo: nat, rem: nat, div: int, mode: Mode)
  {
    || ((mode == HalfUp || mode == HalfEven) && rem >= TWO_62)
    || (quo == MAX_INT64 && RoundQuotient(quo, rem, div, mode) > MAX_INT64)
  }

  lemma RoundQuotient64IsExact(quo: int, rem: int, div: int, mode: Mode)
    requires 0 <= quo < MAX_INT64 || (quo == MAX_INT64 && RoundQuotient(quo, rem, div, mode) == quo)
    requires 0 <= rem < div <= MAX_INT64
    ensures (mode == HalfUp || mode == HalfEven) && rem >= TWO_62 ==>
              RoundQuotient64(quo, rem, div, mode) == quo && RoundQuotient(quo, rem, div, mode) == quo + 1
    ensures !((mode == HalfUp || mode == HalfEven) && rem >= TWO_62) ==>
              RoundQuotient64(quo, rem, div, mode) == RoundQuotient(quo, rem, div, mode)
  {
    WrapOnce(rem * 2);
  }

  /** Without a wrap, an interest that fits is returned and one that does not is refused. */
  lemma SettlesExactly(quo: nat, rem: nat, div: int, unit: int, mode: Mode)
    requires rem < div <= MAX_INT64 && unit > 0 && !RoundingWraps(quo, rem, div, mode)
    ensures var exact := RoundQuotient(quo, rem, div, mode) * unit;
            Settle(quo, rem, div, unit, mode) == if exact <= MAX_INT64 then Ok(exact) else Err(AccrualRange)
  {
    var units := RoundQuotient(quo, rem, div, mode);
    MulNoOverflowIsExact(quo, unit);
    MulNoOverflowIsExact(units, unit);
    if quo > MAX_INT64 / unit {
      MulMonotone(quo, units, unit);
    } else {
      QuotientFits(quo, unit);
      RoundQuotient64IsExact(quo, rem, div, mode);
      assert 0 <= units * unit;
    }
  }

  lemma QuotientFits(quo: nat, unit: int)
    requires unit > 0 && quo <= MAX_INT64 / unit
    ensures quo <= quo * unit <= MAX_INT64
  {
    MulNoOverflowIsExact(quo, unit);
    MulMonotone(1, unit, quo);
  }

  lemma DivisionAtLeast(n: nat, div: int, k: nat)
    requires div > 0 && div * k <= n
    ensures n / div >= k
  {
    var quo := n / div;
    assert (quo + 1) * div == quo * div + div;
    if quo < k {
      MulMonotone(quo + 1, k, div);
    }
  }

  lemma HighHalfMeansLargeQuotient(n: nat, div: int, unit: int, mode: Mode)
    requires div > 0 && unit > 0 && n / TWO_64 >= div
    ensures Quotient(n, div) >= TWO_64 && Quotient(n, div) > MAX_INT64 / unit
    ensures RoundQuotient(Quotient(n, div), Remainder(n, div), div, mode) * unit > MAX_INT64
  {
    MulMonotone(div, n / TWO_64, TWO_64);
    DivisionAtLeast(n, div, TWO_64);
    DivisionAtMost(MAX_INT64, unit);
    MulMonotone(1, unit, RoundQuotient(Quotient(n, div), Remainder(n, div), div, mode));
  }

  lemma DivisionAtMost(x: nat, unit: int)
    requires unit > 0
    ensures x / unit <= x
  {
    MulMonotone(1, unit, x / unit);
  }

  /**
   The promise "exact or refused, never a silent wrap" holds of an accrual if and only if
   neither unguarded step wraps. A caller can check that beforehand: neither step wraps while
   the divisor is at most 2^62 and the quotient is below the largest int64.
   */
  lemma AccrueNeverWrapsExactlyWhen(principal: int, rate: int, days: int, dc: DayCount, p: Policy)
    requires Representable(principal, rate, days, dc, p)
    ensures var n, div := Numerator(principal, rate, days), Divisor(dc, p);
            var exact := Interest(principal, rate, days, dc, p);
            var r := AccrueRegisters(principal, rate, days, dc, p);
            var wraps := RoundingWraps(Quotient(n, div), Remainder(n, div), div, p.mode);
            && ((r.Ok? ==> r.value == exact) <==> !(Quotient(n, div) <= MAX_INT64 / p.Unit() && wraps))
            && (!wraps ==> r == if exact <= MAX_INT64 then Ok(exact) else Err(AccrualRange))
  {
    var n, div, unit := Numerator(principal, rate, days), Divisor(dc, p), p.Unit();
    if principal == 0 || rate == 0 || days == 0 {
      assert n == 0;
      assert Quotient(n, div) == 0 && Remainder(n, div) == 0;
    } else {
      MulNoOverflowIsExact(principal, days);
      MulNoOverflowIsExact(dc.Denominator() * RATE_PPB, unit);
      var quo, rem := Quotient(n, div), Remainder(n, div);
      assert Rounded(n, div, p.mode) == RoundQuotient(quo, rem, div, p.mode);
      if n / TWO_64 >= div {
        HighHalfMeansLargeQuotient(n, div, unit, p.mode);
      } else if !RoundingWraps(quo, rem, div, p.mode) {
        SettlesExactly(quo, rem, div, unit, p.mode);
      } else if quo <= MAX_INT64 / unit {
        SettlesWrongly(quo, rem, div, unit, p.mode);
      }
    }
  }

  /** When a step wraps past the guards, the accrual returns a wrong amount instead of refusing. */
  lemma SettlesWrongly(quo: nat, rem: nat, div: int, unit: int, mode: Mode)
    requires rem < div <= MAX_INT64 && unit > 0 && div <= 365_000_000_000 * unit
    requires quo <= MAX_INT64 / unit && RoundingWraps(quo, rem, div, mode)
    ensures var r := Settle(quo, rem, div, unit, mode);
            r.Ok? && r.value != RoundQuotient(quo, rem, div, mode) * unit
  {
    QuotientFits(quo, unit);
    if (mode == HalfUp || mode == HalfEven) && rem >= TWO_62 {
      DroppedHalf(quo, rem, div, unit, mode);
    } else {
      DroppedCarry(quo, rem, div, unit, mode);
    }
  }

  lemma DroppedHalf(quo: nat, rem: nat, div: int, unit: int, mode: Mode)
    requires TWO_62 <= rem < div <= MAX_INT64 && unit > 0 && div <= 365_000_000_000 * unit
    requires quo * unit <= MAX_INT64 && (mode == HalfUp || mode == HalfEven)
    ensures RoundQuotient64(quo, rem, div, mode) == quo
    ensures Wrap(quo * unit) != RoundQuotient(quo, rem, div, mode) * unit
  {
    assert unit > 1;
    MulMonotone(2, unit, quo);
    assert 2 * quo <= MAX_INT64;
    RoundQuotient64IsExact(quo, rem, div, mode);
    assert (quo + 1) * unit == quo * unit + unit;
  }

  lemma DroppedCarry(quo: nat, rem: nat, div: int, unit: int, mode: Mode)
    requires rem < div && unit > 0 && quo == MAX_INT64 && quo * unit <= MAX_INT64
    requires 2 * rem < TWO_63 || mode == Up
    requires RoundQuotient(quo, rem, div, mode) > MAX_INT64
    ensures unit == 1 && RoundQuotient64(quo, rem, div, mode) == MIN_INT64
  {
    MulMonotone(2, if unit >= 2 then unit else 2, quo);
    WrapOnce(quo + 1);
    if mode != Up {
      WrapOnce(rem * 2);
    }
  }

  /** A doubled remainder wraps: an interest of one whole unit is returned as nothing. */
  lemma AccrueCanLoseAUnit()
    ensures var p := Policy(HalfUp, 20_000_000);
            && AccrueRegisters(7_000_000_000_000_000_000, 1, 1, Actual365, p) == Ok(0)
            && Interest(7_000_000_000_000_000_000, 1, 1, Actual365, p) == 20_000_000
  {
    var n := Numerator(7_000_000_000_000_000_000, 1, 1);
    assert n == 7_000_000_000_000_000_000;
    var div := 365 * RATE_PPB * 20_000_000;
    assert n / div == 0 && n % div == n;
    assert n / TWO_64 == 0;
    WrapOnce(n * 2);
  }

  /** An incremented quotient wraps: a positive interest is returned as the least int64. */
  lemma AccrueCanTurnNegative()
    ensures AccrueRegisters(9223372036829506295, 365_000_000_001, 1, Actual365, Policy(Up, 1)) == Ok(MIN_INT64)
  {
    var n := 9223372036829506295 * 1 * 365_000_000_001;
    assert n == 3366530793451993169711829506295;
    assert n == MAX_INT64 * 365_000_000_000 + 156829506295;
    assert n / 365_000_000_000 == MAX_INT64 && n % 365_000_000_000 == 156829506295;
    assert n / TWO_64 < 365_000_000_000;
    WrapOnce(MAX_INT64 + 1);
  }
}
