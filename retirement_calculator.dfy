/** The retirement projection of components/visualizations/RetirementCalculator.tsx:
    yearly compounding with an employer match capped at the employee's own
    contribution, the 4% withdrawal income, the inflation-adjusted shortfall,
    the readiness classification, and the clamping of edited inputs. Ages
    are whole years; amounts and rates are exact reals. */
module RetirementProjection {
  import opened Numeric

  datatype RetirementInputs = RetirementInputs(
    currentAge: int,
    retirementAge: int,
    currentSavings: real,
    monthlyContribution: real,
    employerMatch: real,
    expectedReturn: real,
    currentIncome: real,
    inflationRate: real)

  datatype RetirementData = RetirementData(
    age: int,
    totalSavings: real,
    annualContribution: real,
    employerMatch: real,
    interestEarned: real,
    totalValue: real)

  function YearsToRetirement(inputs: RetirementInputs): int
  {
    inputs.retirementAge - inputs.currentAge
  }

  function AnnualContribution(inputs: RetirementInputs): real
  {
    inputs.monthlyContribution * 12.0
  }

  /** The employer pays `employerMatch` percent of income, but never more
      than the employee puts in over the year. */
  function EmployerMatchAmount(inputs: RetirementInputs): (m: real)
    ensures m <= AnnualContribution(inputs)
    ensures m <= inputs.currentIncome * inputs.employerMatch / 100.0
    ensures m == AnnualContribution(inputs) || m == inputs.currentIncome * inputs.employerMatch / 100.0
  {
    Min(inputs.currentIncome * inputs.employerMatch / 100.0, AnnualContribution(inputs))
  }

  /** The value after `y` years: unchanged in year 0, then each year the
      return on the value plus both contributions. */
  function ValueAt(inputs: RetirementInputs, y: nat): real
  {
    if y == 0 then inputs.currentSavings
    else
      var v := ValueAt(inputs, y - 1);
      v + v * (inputs.expectedReturn / 100.0) + AnnualContribution(inputs) + EmployerMatchAmount(inputs)
  }

  /** The row for year `y`, as the loop records it after updating the value. */
  function RowAt(inputs: RetirementInputs, y: nat): RetirementData
  {
    var paidIn := AnnualContribution(inputs) + EmployerMatchAmount(inputs);
    RetirementData(
      inputs.currentAge + y,
      ValueAt(inputs, y) - paidIn * y as real,
      paidIn,
      EmployerMatchAmount(inputs),
      if y > 0 then ValueAt(inputs, y) * (inputs.expectedReturn / 100.0) else 0.0,
      ValueAt(inputs, y))
  }

  /** The value the loop ends with: the savings untouched when the
      retirement age is below the current age. */
  function TotalAtRetirement(inputs: RetirementInputs): real
  {
    if YearsToRetirement(inputs) >= 0 then ValueAt(inputs, YearsToRetirement(inputs))
    else inputs.currentSavings
  }

  /** The 4% rule: a twelfth of 4% of the final value each month. */
  function MonthlyIncome(total: real): real
  {
    total * 0.04 / 12.0
  }

  /** 80% of the current monthly income, grown by inflation over the years
      to retirement. `None` stands for a target that is not a finite
      number: when inflation is −100% and the retirement age is below the
      current age, `Math.pow(0, negative)` is infinite, and the target is
      +Infinity for a positive income, NaN for no income and −Infinity for
      a negative one. */
  function AdjustedTargetIncome(inputs: RetirementInputs): (t: Option<real>)
    ensures t.None? <==> YearsToRetirement(inputs) < 0 && inputs.inflationRate == -100.0
  {
    var base := 1.0 + inputs.inflationRate / 100.0;
    var years := YearsToRetirement(inputs);
    if years < 0 && base == 0.0 then None
    else Some(inputs.currentIncome * 0.8 / 12.0 * IntPow(base, years))
  }

  /** The shortfall: how far the 4% income falls below the adjusted target,
      never negative. With a target that is not a finite number it is not
      one either (`None`: +Infinity or NaN), except that `Math.max(0, …)`
      turns the −Infinity of a negative income into 0. */
  function Shortfall(inputs: RetirementInputs, total: real): (s: Option<real>)
    ensures s.None? <==> AdjustedTargetIncome(inputs).None? && inputs.currentIncome >= 0.0
    ensures AdjustedTargetIncome(inputs).None? && inputs.currentIncome < 0.0 ==> s == Some(0.0)
    ensures s.Some? ==> s.value >= 0.0
    ensures s.Some? && AdjustedTargetIncome(inputs).Some? ==>
      s.value >= AdjustedTargetIncome(inputs).value - MonthlyIncome(total)
    ensures s.Some? && AdjustedTargetIncome(inputs).Some? ==>
      (s.value == 0.0 <==> MonthlyIncome(total) >= AdjustedTargetIncome(inputs).value)
  {
    match AdjustedTargetIncome(inputs)
    case None => if inputs.currentIncome < 0.0 then Some(0.0) else None
    case Some(target) => Some(Max(0.0, target - MonthlyIncome(total)))
  }

  /** The state the effect sets: the rows, the final value, the monthly
      income and the shortfall. */
  datatype Projection = Projection(
    data: seq<RetirementData>,
    totalAtRetirement: real,
    monthlyRetirementIncome: real,
    shortfall: Option<real>)

  /** `calculateProjection`: one row per year from 0 to the years to
      retirement (none when that is negative), row `y` being the year-`y`
      row, and the final value, income and shortfall derived from it. */
  method CalculateProjection(inputs: RetirementInputs) returns (p: Projection)
    ensures |p.data| == if YearsToRetirement(inputs) >= 0 then YearsToRetirement(inputs) + 1 else 0
    ensures forall y :: 0 <= y < |p.data| ==> p.data[y] == RowAt(inputs, y)
    ensures p.totalAtRetirement == TotalAtRetirement(inputs)
    ensures p.monthlyRetirementIncome == MonthlyIncome(TotalAtRetirement(inputs))
    ensures p.shortfall == Shortfall(inputs, TotalAtRetirement(inputs))
  {
    var data: seq<RetirementData> := [];
    var yearsToRetirement := inputs.retirementAge - inputs.currentAge;
    var currentValue := inputs.currentSavings;
    var year := 0;
    while year <= yearsToRetirement
      invariant 0 <= year <= if yearsToRetirement >= 0 then yearsToRetirement + 1 else 0
      invariant |data| == year
      invariant currentValue == ValueAt(inputs, if year == 0 then 0 else year - 1)
      invariant forall y :: 0 <= y < year ==> data[y] == RowAt(inputs, y)
    {
      ProjectionYear(inputs, year, currentValue);
      var age := inputs.currentAge + year;
      var annualContribution := inputs.monthlyContribution * 12.0;
      var employerMatchAmount := Min(inputs.currentIncome * inputs.employerMatch / 100.0, annualContribution);
      if year > 0 {
        var interestEarned := currentValue * (inputs.expectedReturn / 100.0);
        currentValue := currentValue + (interestEarned + annualContribution + employerMatchAmount);
      }
      var row := RetirementData(
        age,
        currentValue - (annualContribution + employerMatchAmount) * year as real,
        annualContribution + employerMatchAmount,
        employerMatchAmount,
        if year > 0 then currentValue * (inputs.expectedReturn / 100.0) else 0.0,
        currentValue);
      assert row == RowAt(inputs, year);
      data := data + [row];
      year := year + 1;
    }
    var monthlyIncome := currentValue * 0.04 / 12.0;
    p := Projection(data, currentValue, monthlyIncome, Shortfall(inputs, currentValue));
  }

  /** One turn of the loop, as the loop computes it: from the previous
      year's value it reaches the year-`year` value and row. */
  lemma ProjectionYear(inputs: RetirementInputs, year: nat, v: real)
    requires v == ValueAt(inputs, if year == 0 then 0 else year - 1)
    ensures var ac := inputs.monthlyContribution * 12.0;
      var em := Min(inputs.currentIncome * inputs.employerMatch / 100.0, ac);
      var next := if year > 0 then v + (v * (inputs.expectedReturn / 100.0) + ac + em) else v;
      && next == ValueAt(inputs, year)
      && RetirementData(inputs.currentAge + year, next - (ac + em) * year as real, ac + em, em,
           if year > 0 then next * (inputs.expectedReturn / 100.0) else 0.0, next)
         == RowAt(inputs, year)
  {
    var ac := inputs.monthlyContribution * 12.0;
    var em := Min(inputs.currentIncome * inputs.employerMatch / 100.0, ac);
    assert ac == AnnualContribution(inputs) && em == EmployerMatchAmount(inputs);
    if year > 0 {
      var g := inputs.expectedReturn / 100.0;
      var next := v + (v * g + ac + em);
      assert ValueAt(inputs, year) == v + v * g + ac + em;
      assert next == ValueAt(inputs, year);
      assert RowAt(inputs, year)
          == RetirementData(inputs.currentAge + year, next - (ac + em) * year as real, ac + em, em, next * g, next);
    }
  }

  /** Each year after the first adds the return on the previous value and
      both contributions; with a non-negative return and contributions the
      value never falls. */
  lemma ValueGrows(inputs: RetirementInputs, y: nat)
    requires y > 0
    requires inputs.expectedReturn >= 0.0 && inputs.monthlyContribution >= 0.0
    requires inputs.currentIncome >= 0.0 && inputs.employerMatch >= 0.0
    requires ValueAt(inputs, y - 1) >= 0.0
    ensures ValueAt(inputs, y) >= ValueAt(inputs, y - 1) + AnnualContribution(inputs) + EmployerMatchAmount(inputs)
    ensures EmployerMatchAmount(inputs) >= 0.0
  {
    MulWeak(ValueAt(inputs, y - 1), inputs.expectedReturn / 100.0, 0.0);
    MulWeak(inputs.currentIncome, inputs.employerMatch, 0.0);
  }

  /** With a non-negative return and no negative contribution or savings,
      the value after `y` years is at least the savings plus `y` years of
      contributions. */
  lemma {:induction false} ValueCoversContributions(inputs: RetirementInputs, y: nat)
    requires inputs.expectedReturn >= 0.0 && inputs.monthlyContribution >= 0.0
    requires inputs.currentIncome >= 0.0 && inputs.employerMatch >= 0.0 && inputs.currentSavings >= 0.0
    ensures ValueAt(inputs, y)
        >= inputs.currentSavings + (AnnualContribution(inputs) + EmployerMatchAmount(inputs)) * y as real
    ensures RowAt(inputs, y).totalSavings >= inputs.currentSavings
  {
    if y > 0 {
      ValueCoversContributions(inputs, y - 1);
      MulWeak(inputs.currentIncome, inputs.employerMatch, 0.0);
      MulWeak(AnnualContribution(inputs) + EmployerMatchAmount(inputs), (y - 1) as real, 0.0);
      ValueGrows(inputs, y);
    }
  }

  /** The first row keeps the savings and shows no interest; a row's paid-in
      figure is the employee's contribution plus the capped match. */
  lemma FirstRow(inputs: RetirementInputs)
    ensures RowAt(inputs, 0).totalValue == RowAt(inputs, 0).totalSavings == inputs.currentSavings
    ensures RowAt(inputs, 0).interestEarned == 0.0
    ensures RowAt(inputs, 0).age == inputs.currentAge
    ensures RowAt(inputs, 0).employerMatch <= AnnualContribution(inputs)
  {
  }

  /** A retirement age below the current age gives no rows and leaves the
      final value at the savings. */
  lemma NoYearsLeft(inputs: RetirementInputs)
    requires inputs.retirementAge < inputs.currentAge
    ensures TotalAtRetirement(inputs) == inputs.currentSavings
    ensures MonthlyIncome(TotalAtRetirement(inputs)) == inputs.currentSavings / 300.0
  {
  }

  // ---------------------------------------------------------------------
  // retirementReadiness

  datatype Readiness = OnTrack | GoodProgress | NeedsImprovement

  /** `retirementReadiness`: the projected value as a percentage (at most
      100) of 25 years of 80% of income. With no income the ratio is
      infinite for a positive value (on track) and not a number otherwise
      (needs improvement), as floating point has it. */
  function RetirementReadiness(currentIncome: real, projected: real): Readiness
  {
    var target := currentIncome * 0.8 * 25.0;
    if target == 0.0 then
      if projected > 0.0 then OnTrack else NeedsImprovement
    else
      var pct := Min(projected / target * 100.0, 100.0);
      if pct >= 100.0 then OnTrack
      else if pct >= 75.0 then GoodProgress
      else NeedsImprovement
  }

  /** The ratio test against a positive target, without division. */
  lemma RatioAtLeast(projected: real, target: real, k: real)
    requires target > 0.0
    ensures projected / target * 100.0 >= k <==> projected * 100.0 >= k * target
  {
    var q := projected / target;
    assert q * target == projected;
    if q * 100.0 >= k {
      MulWeak(target, q * 100.0, k);
    }
    if projected * 100.0 >= k * target && q * 100.0 < k {
      MulStrict(target, k, q * 100.0);
    }
  }

  /** For a positive income the classification is by thresholds on the
      projected value: at least 20 incomes is on track, at least 15 is good
      progress, anything less needs improvement. */
  lemma ReadinessThresholds(currentIncome: real, projected: real)
    requires currentIncome > 0.0
    ensures RetirementReadiness(currentIncome, projected) == OnTrack <==> projected >= 20.0 * currentIncome
    ensures RetirementReadiness(currentIncome, projected) == GoodProgress
        <==> 15.0 * currentIncome <= projected < 20.0 * currentIncome
    ensures RetirementReadiness(currentIncome, projected) == NeedsImprovement <==> projected < 15.0 * currentIncome
  {
    var target := currentIncome * 0.8 * 25.0;
    RatioAtLeast(projected, target, 100.0);
    RatioAtLeast(projected, target, 75.0);
  }

  // ---------------------------------------------------------------------
  // handleInputChange

  datatype Field =
    | CurrentAge | RetirementAge | CurrentSavings | MonthlyContribution
    | EmployerMatch | ExpectedReturn | CurrentIncome | InflationRate

  /** The maximum each field accepts. */
  function MaxValue(f: Field): real
  {
    match f
    case CurrentAge => 100.0
    case RetirementAge => 100.0
    case CurrentSavings => 999999999.0
    case MonthlyContribution => 999999.0
    case EmployerMatch => 100.0
    case ExpectedReturn => 50.0
    case CurrentIncome => 999999999.0
    case InflationRate => 100.0
  }

  predicate IsAge(f: Field)
  {
    f == CurrentAge || f == RetirementAge
  }

  function Get(inputs: RetirementInputs, f: Field): real
  {
    match f
    case CurrentAge => inputs.currentAge as real
    case RetirementAge => inputs.retirementAge as real
    case CurrentSavings => inputs.currentSavings
    case MonthlyContribution => inputs.monthlyContribution
    case EmployerMatch => inputs.employerMatch
    case ExpectedReturn => inputs.expectedReturn
    case CurrentIncome => inputs.currentIncome
    case InflationRate => inputs.inflationRate
  }

  /** `handleInputChange`: store the edited value capped at the field's
      maximum, leaving the other fields as they were. */
  function HandleInputChange(inputs: RetirementInputs, f: Field, value: real): (r: RetirementInputs)
    requires IsAge(f) ==> value.Floor as real == value
    ensures forall g :: g != f ==> Get(r, g) == Get(inputs, g)
    ensures Get(r, f) == Min(value, MaxValue(f))
  {
    var v := Min(value, MaxValue(f));
    match f
    case CurrentAge => inputs.(currentAge := v.Floor)
    case RetirementAge => inputs.(retirementAge := v.Floor)
    case CurrentSavings => inputs.(currentSavings := v)
    case MonthlyContribution => inputs.(monthlyContribution := v)
    case EmployerMatch => inputs.(employerMatch := v)
    case ExpectedReturn => inputs.(expectedReturn := v)
    case CurrentIncome => inputs.(currentIncome := v)
    case InflationRate => inputs.(inflationRate := v)
  }

  /** The clamp never raises a value, never exceeds the maximum, keeps a
      value within the maximum as typed, sets no lower bound, and applying
      it again changes nothing. */
  lemma ClampProperties(inputs: RetirementInputs, f: Field, value: real)
    requires IsAge(f) ==> value.Floor as real == value
    ensures Get(HandleInputChange(inputs, f, value), f) <= value
    ensures Get(HandleInputChange(inputs, f, value), f) <= MaxValue(f)
    ensures value <= MaxValue(f) <==> Get(HandleInputChange(inputs, f, value), f) == value
    ensures var r := HandleInputChange(inputs, f, value);
      HandleInputChange(r, f, Get(r, f)) == r
  {
    var r := HandleInputChange(inputs, f, value);
    assert IsAge(f) ==> Get(r, f).Floor as real == Get(r, f);
    var r2 := HandleInputChange(r, f, Get(r, f));
    assert forall g :: Get(r2, g) == Get(r, g);
    match f
    case CurrentAge =>
    case RetirementAge =>
    case CurrentSavings =>
    case MonthlyContribution =>
    case EmployerMatch =>
    case ExpectedReturn =>
    case CurrentIncome =>
    case InflationRate =>
  }
}
