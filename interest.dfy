/**
  The tiered reinvestment interest calculator of the expenses tracker.

  A lump sum is invested for `totalDays` days. The duration selects a monthly
  rate from a tier table; each round earns
  `currentPrincipal * (monthlyRate / 100) * totalMonths`, and that interest is
  itself reinvested as the next round's principal, for as long as the interest
  earned is at least 10,000. The total starts at the principal and grows by
  every reinvested interest; the first interest below 10,000 is reported but
  not added. Both results are rounded to cents, ties to even.

  `decimal` is modelled as `real`; dates are points on a real-valued day line,
  so `endDate - startDate` is the (possibly fractional) number of days.
*/
module InterestCalculator {

  datatype Error = InvalidInterval   // "End date must be greater than start date."

  datatype Result<T> = Ok(value: T) | Err(error: Error)

  /** Interests below this amount are not reinvested. */
  const ReinvestThreshold: real := 10000.0

  /**
    The tier table: inclusive upper bounds in days to a monthly percentage.
    A rate of zero means exactly that the duration is beyond the table.
  */
  function MonthlyRate(totalDays: real): (rate: real)
    ensures rate == 0.0 <==> totalDays > 365.0
    ensures totalDays <= 365.0 ==> 1.2375 <= rate <= 1.80
  {
    if totalDays <= 30.0 then 1.2375
    else if totalDays <= 60.0 then 1.35
    else if totalDays <= 90.0 then 1.50
    else if totalDays <= 120.0 then 1.575
    else if totalDays <= 180.0 then 1.65
    else if totalDays <= 270.0 then 1.725
    else if totalDays <= 365.0 then 1.80
    else 0.0
  }

  lemma RateTable()
    ensures MonthlyRate(30.0) == 1.2375 && MonthlyRate(31.0) == 1.35
    ensures MonthlyRate(60.0) == 1.35 && MonthlyRate(61.0) == 1.50
    ensures MonthlyRate(90.0) == 1.50 && MonthlyRate(91.0) == 1.575
    ensures MonthlyRate(120.0) == 1.575 && MonthlyRate(121.0) == 1.65
    ensures MonthlyRate(180.0) == 1.65 && MonthlyRate(181.0) == 1.725
    ensures MonthlyRate(270.0) == 1.725 && MonthlyRate(271.0) == 1.80
    ensures MonthlyRate(365.0) == 1.80 && MonthlyRate(366.0) == 0.0
    ensures MonthlyRate(400.0) == 0.0
  {
  }

  /** Within the table the rate is positive, at most 1.80, and never falls as the duration grows. */
  lemma RateMonotone(d1: real, d2: real)
    requires 0.0 < d1 <= d2 <= 365.0
    ensures 1.2375 <= MonthlyRate(d1) <= MonthlyRate(d2) <= 1.80
  {
  }

  /** The growth factor of one round: (monthlyRate / 100) * totalMonths. */
  function Factor(totalDays: real): (f: real)
  {
    (MonthlyRate(totalDays) / 100.0) * (totalDays / 30.0)
  }

  /** Over the table's range the per-round factor lies strictly between 0 and 0.22 (at most 0.219 at 365 days). */
  lemma FactorBounds(totalDays: real)
    requires 0.0 < totalDays <= 365.0
    ensures 0.0 < Factor(totalDays) <= 0.219
  {
  }

  /** The interest one round earns on `current`, computed as the loop does. */
  function RoundInterest(current: real, totalDays: real): (interest: real)
  {
    current * (MonthlyRate(totalDays) / 100.0) * (totalDays / 30.0)
  }

  /** The loop's expression, with the rate and months held in locals, is RoundInterest. */
  lemma LoopInterest(current: real, monthlyRate: real, totalMonths: real, totalDays: real)
    requires monthlyRate == MonthlyRate(totalDays) && totalMonths == totalDays / 30.0
    ensures current * (monthlyRate / 100.0) * totalMonths == RoundInterest(current, totalDays)
  {
  }

  /**
    An interest large enough to be reinvested is at least one unit smaller
    than the principal that earned it: the factor is below 1, so a
    non-positive principal never reaches the threshold, and a positive one
    shrinks geometrically.
  */
  lemma InterestShrinks(current: real, totalDays: real)
    requires 0.0 < totalDays <= 365.0
    requires RoundInterest(current, totalDays) >= ReinvestThreshold
    ensures 0.0 < ReinvestThreshold <= RoundInterest(current, totalDays) <= current - 1.0
  {
    var f := Factor(totalDays);
    FactorBounds(totalDays);
    assert RoundInterest(current, totalDays) == current * f;
    assert current * f <= current * 0.219;
  }

  /**
    The reinvestment rounds, from principal `current` and running total
    `total`: the pair (final total, first interest below the threshold).
    The running total only ever grows, and the interest reported is below the
    threshold.
  */
  function Reinvest(current: real, total: real, totalDays: real): (r: (real, real))
    requires 0.0 < totalDays <= 365.0
    ensures r.0 >= total
    ensures r.1 < ReinvestThreshold
    decreases if current < 0.0 then 0 else current.Floor
  {
    var interest := RoundInterest(current, totalDays);
    if interest < ReinvestThreshold then (total, interest)
    else
      InterestShrinks(current, totalDays);
      Reinvest(interest, total + interest, totalDays)
  }

  /** The whole number nearest to `scaled`, a tie going to the even one. */
  function NearestEven(scaled: real): (n: int)
    ensures -0.5 <= n as real - scaled <= 0.5
    ensures scaled - scaled.Floor as real == 0.5 ==> n % 2 == 0
  {
    var lo := scaled.Floor;
    var frac := scaled - lo as real;
    if frac < 0.5 then lo
    else if frac > 0.5 then lo + 1
    else if lo % 2 == 0 then lo
    else lo + 1
  }

  /** A whole number of cents, divided by 100, scales back exactly and keeps its distance from `x` in cents. */
  lemma CentsScale(cents: int, x: real)
    requires -0.5 <= cents as real - x * 100.0 <= 0.5
    ensures ((cents as real / 100.0) * 100.0).Floor == cents
    ensures -0.005 <= cents as real / 100.0 - x <= 0.005
  {
    assert (cents as real / 100.0) * 100.0 == cents as real;
  }

  /**
    Math.Round(x, 2) on decimal: to the nearest cent, a tie going to the even
    cent. Off a tie only one whole cent lies within half a cent of x, so the
    first two clauses fix the result there; the third decides the ties.
  */
  function RoundHalfEven2(x: real): (r: real)
    ensures (r * 100.0).Floor as real == r * 100.0
    ensures -0.005 <= r - x <= 0.005
    ensures x * 100.0 - (x * 100.0).Floor as real == 0.5 ==> (r * 100.0).Floor % 2 == 0
  {
    var cents := NearestEven(x * 100.0);
    CentsScale(cents, x);
    cents as real / 100.0
  }

  /** Ties go to the even cent, on either side of zero; other amounts go to the nearest cent. */
  lemma RoundTieExamples()
    ensures RoundHalfEven2(0.125) == 0.12
    ensures RoundHalfEven2(0.135) == 0.14
    ensures RoundHalfEven2(-0.125) == -0.12
    ensures RoundHalfEven2(0.126) == 0.13
  {
    assert (12.5).Floor == 12;
    assert (13.5).Floor == 13;
    assert (-12.5).Floor == -13;
    assert (12.6).Floor == 12;
  }

  /** Rounding never reverses the order of two amounts. */
  lemma RoundMonotone(x: real, y: real)
    requires x <= y
    ensures RoundHalfEven2(x) <= RoundHalfEven2(y)
  {
    var lx, ly := (x * 100.0).Floor, (y * 100.0).Floor;
    assert x * 100.0 <= y * 100.0;
    assert lx <= ly;
  }

  /** An amount already in whole cents is left as it is. */
  lemma RoundWholeCents(cents: int)
    ensures RoundHalfEven2(cents as real / 100.0) == cents as real / 100.0
  {
    assert (cents as real / 100.0) * 100.0 == cents as real;
  }

  /**
    CalculateSpecialInterestWithReinvestment as a function of its inputs:
    an error for an empty or reversed interval, (0, 0) beyond the tier table,
    and otherwise the rounded results of the reinvestment rounds. Over the
    reals an end date not after the start date is the only error; the
    OverflowException a `decimal` total past its range would raise has no
    counterpart here.
  */
  function Projection(principal: real, startDate: real, endDate: real): (r: Result<(real, real)>)
    ensures r.Err? <==> endDate <= startDate
    ensures r.Ok? ==> (r.value.0 * 100.0).Floor as real == r.value.0 * 100.0
    ensures r.Ok? ==> (r.value.1 * 100.0).Floor as real == r.value.1 * 100.0
  {
    if endDate <= startDate then Err(InvalidInterval)
    else
      var totalDays := endDate - startDate;
      if MonthlyRate(totalDays) == 0.0 then Ok((0.0, 0.0))
      else
        var (total, last) := Reinvest(principal, principal, totalDays);
        Ok((RoundHalfEven2(total), RoundHalfEven2(last)))
  }

  method CalculateSpecialInterestWithReinvestment(principal: real, startDate: real, endDate: real)
    returns (r: Result<(real, real)>)
    ensures r == Projection(principal, startDate, endDate)
  {
    if endDate <= startDate {
      return Err(InvalidInterval);
    }
    var totalDays := endDate - startDate;
    var totalMonths := totalDays / 30.0;
    var monthlyRate := MonthlyRate(totalDays);
    if monthlyRate == 0.0 {
      return Ok((0.0, 0.0));
    }
    var totalAmountInvested := principal;
    var currentPrincipal := principal;
    while true
      invariant Reinvest(currentPrincipal, totalAmountInvested, totalDays) == Reinvest(principal, principal, totalDays)
      decreases if currentPrincipal < 0.0 then 0 else currentPrincipal.Floor
    {
      var interest := currentPrincipal * (monthlyRate / 100.0) * totalMonths;
      LoopInterest(currentPrincipal, monthlyRate, totalMonths, totalDays);
      if interest < ReinvestThreshold {
        assert Reinvest(currentPrincipal, totalAmountInvested, totalDays) == (totalAmountInvested, interest);
        currentPrincipal := interest;
        break;
      }
      InterestShrinks(currentPrincipal, totalDays);
      totalAmountInvested := totalAmountInvested + interest;
      currentPrincipal := interest;
    }
    return Ok((RoundHalfEven2(totalAmountInvested), RoundHalfEven2(currentPrincipal)));
  }

  // --- An independent description of the rounds: a geometric progression ---

  /** The k-th term of the progression principal, principal*f, principal*f^2, ... */
  function Compounded(principal: real, f: real, k: nat): (term: real)
  {
    if k == 0 then principal else Compounded(principal, f, k - 1) * f
  }

  /** The sum of the terms 1..n of the progression (the first n interests). */
  function CompoundedSum(principal: real, f: real, n: nat): (sum: real)
  {
    if n == 0 then 0.0 else CompoundedSum(principal, f, n - 1) + Compounded(principal, f, n)
  }

  lemma {:induction false} CompoundedShift(principal: real, f: real, k: nat)
    ensures Compounded(principal * f, f, k) == Compounded(principal, f, k + 1)
  {
    if k > 0 {
      CompoundedShift(principal, f, k - 1);
    }
  }

  lemma {:induction false} CompoundedSumShift(principal: real, f: real, n: nat)
    ensures principal * f + CompoundedSum(principal * f, f, n) == CompoundedSum(principal, f, n + 1)
  {
    if n > 0 {
      CompoundedSumShift(principal, f, n - 1);
      CompoundedShift(principal, f, n);
      calc {
        principal * f + CompoundedSum(principal * f, f, n);
        principal * f + CompoundedSum(principal * f, f, n - 1) + Compounded(principal * f, f, n);
        CompoundedSum(principal, f, n) + Compounded(principal, f, n + 1);
        CompoundedSum(principal, f, n + 1);
      }
    } else {
      assert Compounded(principal, f, 1) == Compounded(principal, f, 0) * f;
    }
  }

  /** The number of rounds whose interest reaches the threshold and is reinvested. */
  function ReinvestedRounds(current: real, totalDays: real): (n: nat)
    requires 0.0 < totalDays <= 365.0
    decreases if current < 0.0 then 0 else current.Floor
  {
    var interest := RoundInterest(current, totalDays);
    if interest < ReinvestThreshold then 0
    else
      InterestShrinks(current, totalDays);
      1 + ReinvestedRounds(interest, totalDays)
  }

  /**
    The rounds are the progression principal * Factor^k: with n reinvested
    rounds, the interests 1..n all reach the threshold and are added to the
    total, and interest n+1 is the first below it and is the second result.
  */
  lemma {:induction false} ReinvestIsGeometric(principal: real, total: real, totalDays: real)
    requires 0.0 < totalDays <= 365.0
    ensures var n, f := ReinvestedRounds(principal, totalDays), Factor(totalDays);
      && Reinvest(principal, total, totalDays) == (total + CompoundedSum(principal, f, n), Compounded(principal, f, n + 1))
      && (forall k :: 1 <= k <= n ==> Compounded(principal, f, k) >= ReinvestThreshold)
      && Compounded(principal, f, n + 1) < ReinvestThreshold
    decreases if principal < 0.0 then 0 else principal.Floor
  {
    var f := Factor(totalDays);
    var interest := RoundInterest(principal, totalDays);
    assert interest == principal * f == Compounded(principal, f, 1);
    if interest >= ReinvestThreshold {
      InterestShrinks(principal, totalDays);
      ReinvestIsGeometric(interest, total + interest, totalDays);
      var m := ReinvestedRounds(interest, totalDays);
      CompoundedSumShift(principal, f, m);
      CompoundedShift(principal, f, m + 1);
      forall k | 1 <= k <= m + 1
        ensures Compounded(principal, f, k) >= ReinvestThreshold
      {
        if k > 1 {
          CompoundedShift(principal, f, k - 1);
        }
      }
    }
  }

  /** A duration beyond 365 days yields (0, 0) without any round. */
  lemma ProjectionBeyondTable(principal: real, startDate: real, endDate: real)
    requires endDate - startDate > 365.0
    ensures Projection(principal, startDate, endDate) == Ok((0.0, 0.0))
  {
  }

  /** A first interest below the threshold leaves the total at the principal. */
  lemma ProjectionSingleRound(principal: real, startDate: real, endDate: real)
    requires 0.0 < endDate - startDate <= 365.0
    requires RoundInterest(principal, endDate - startDate) < ReinvestThreshold
    ensures Projection(principal, startDate, endDate)
         == Ok((RoundHalfEven2(principal), RoundHalfEven2(RoundInterest(principal, endDate - startDate))))
  {
  }

  /** Within the table, the rounded total is at least the rounded principal and the remainder is at most 10,000. */
  lemma ProjectionBounds(principal: real, startDate: real, endDate: real)
    requires 0.0 < endDate - startDate <= 365.0
    ensures Projection(principal, startDate, endDate).Ok?
    ensures Projection(principal, startDate, endDate).value.0 >= RoundHalfEven2(principal)
    ensures Projection(principal, startDate, endDate).value.1 <= ReinvestThreshold
  {
    var totalDays := endDate - startDate;
    var (total, last) := Reinvest(principal, principal, totalDays);
    RoundMonotone(principal, total);
    RoundMonotone(last, ReinvestThreshold);
    RoundWholeCents(1000000);
  }

  /** Ten million over 30 days: one reinvested round of 123,750, then 1,531.40625 is reported. */
  lemma ExampleTenMillion()
    ensures Projection(10000000.0, 0.0, 30.0) == Ok((10123750.00, 1531.41))
  {
    assert RoundInterest(10000000.0, 30.0) == 123750.0;
    assert RoundInterest(123750.0, 30.0) == 1531.40625;
    assert Reinvest(123750.0, 10123750.0, 30.0) == (10123750.0, 1531.40625);
    assert (1012375000.0).Floor == 1012375000;
    assert (153140.625).Floor == 153140;
  }

  /** One hundred thousand over 30 days: the first interest, 1,237.50, is already below the threshold. */
  lemma ExampleHundredThousand()
    ensures Projection(100000.0, 0.0, 30.0) == Ok((100000.00, 1237.50))
  {
    assert RoundInterest(100000.0, 30.0) == 1237.5;
    assert (10000000.0).Floor == 10000000;
    assert (123750.0).Floor == 123750;
  }

  /**
    Five hundred over 31 days: the single interest is exactly 6.975, a tie
    that goes to the even cent 6.98. (A `decimal` evaluation cuts 31/30 to 28
    places, lands just below the tie and reports 6.97.)
  */
  lemma ExampleThirtyOneDays()
    ensures Projection(500.0, 0.0, 31.0) == Ok((500.00, 6.98))
  {
    assert RoundInterest(500.0, 31.0) == 6.975;
    assert (50000.0).Floor == 50000;
    assert (697.5).Floor == 697;
  }
}
