/** The year-by-year projection of components/visualizations/CompoundInterestChart.tsx:
    a balance compounded monthly with a fixed monthly deposit, sampled once a
    year into rounded rows, and the summary read off the last row. */
module CompoundGrowth {
  import opened Numeric

  datatype CalculatorInputs = CalculatorInputs(
    principal: real,
    monthlyContribution: real,
    annualRate: real,
    years: int)

  /** One chart point, every amount rounded with `Math.round`. */
  datatype GrowthRow = GrowthRow(year: int, balance: int, contributions: int, interest: int)

  /** `annualRate / 100 / 12`. */
  function MonthlyRate(inputs: CalculatorInputs): real
  {
    inputs.annualRate / 100.0 / 12.0
  }

  /** `k` months of `b := b·(1 + monthlyRate) + monthlyContribution`. */
  function Months(inputs: CalculatorInputs, b: real, k: nat): real
  {
    if k == 0 then b
    else Months(inputs, b, k - 1) * (1.0 + MonthlyRate(inputs)) + inputs.monthlyContribution
  }

  /** The balance at the start of year `y`: twelve months per year from the principal. */
  function BalanceAt(inputs: CalculatorInputs, y: nat): real
  {
    if y == 0 then inputs.principal else Months(inputs, BalanceAt(inputs, y - 1), 12)
  }

  /** What has been paid in by the start of year `y`. */
  function ContributedBy(inputs: CalculatorInputs, y: nat): real
  {
    inputs.principal + inputs.monthlyContribution * 12.0 * y as real
  }

  /** The row for year `y`: the balance, the contributions and their
      difference, each rounded on its own. */
  function RowAt(inputs: CalculatorInputs, y: nat): GrowthRow
  {
    GrowthRow(y, Round(BalanceAt(inputs, y)), Round(ContributedBy(inputs, y)),
      Round(BalanceAt(inputs, y) - ContributedBy(inputs, y)))
  }

  /** `calculateCompoundInterest`: one row for each year 0..years (none when
      `years` is negative), row `i` being the year-`i` row. */
  method CalculateCompoundInterest(inputs: CalculatorInputs) returns (data: seq<GrowthRow>)
    ensures |data| == if inputs.years >= 0 then inputs.years + 1 else 0
    ensures forall i :: 0 <= i < |data| ==> data[i] == RowAt(inputs, i)
  {
    data := [];
    var monthlyRate := inputs.annualRate / 100.0 / 12.0;
    var balance := inputs.principal;
    var year := 0;
    while year <= inputs.years
      invariant 0 <= year <= if inputs.years >= 0 then inputs.years + 1 else 0
      invariant |data| == year
      invariant balance == BalanceAt(inputs, year)
      invariant forall i :: 0 <= i < year ==> data[i] == RowAt(inputs, i)
    {
      var totalContributions := inputs.principal + inputs.monthlyContribution * 12.0 * year as real;
      var interest := balance - totalContributions;
      data := data + [GrowthRow(year, Round(balance), Round(totalContributions), Round(interest))];
      var month := 0;
      while month < 12
        invariant 0 <= month <= 12
        invariant balance == Months(inputs, BalanceAt(inputs, year), month)
      {
        balance := balance * (1.0 + monthlyRate) + inputs.monthlyContribution;
        month := month + 1;
      }
      year := year + 1;
    }
  }

  /** The summary figures: final balance, total contributions, total interest. */
  datatype Summary = Summary(finalBalance: int, totalContributions: int, totalInterest: int)

  /** The summary reads the last row; with no rows the lookup of the last row
      fails (`data[-1]` is undefined), modelled as `None`. */
  function Summarize(data: seq<GrowthRow>): (s: Option<Summary>)
    ensures s.Some? <==> |data| > 0
    ensures s.Some? ==> s.value == Summary(data[|data| - 1].balance,
      data[|data| - 1].contributions, data[|data| - 1].interest)
  {
    if |data| == 0 then None
    else
      var last := data[|data| - 1];
      Some(Summary(last.balance, last.contributions, last.interest))
  }

  /** Year 0 shows the principal as both balance and contributions, with no interest. */
  lemma FirstRow(inputs: CalculatorInputs)
    ensures RowAt(inputs, 0).balance == RowAt(inputs, 0).contributions == Round(inputs.principal)
    ensures RowAt(inputs, 0).interest == 0
  {
  }

  /** With a non-negative deposit the contributions shown never fall from one year to the next. */
  lemma ContributionsNonDecreasing(inputs: CalculatorInputs, i: nat, j: nat)
    requires inputs.monthlyContribution >= 0.0 && i <= j
    ensures RowAt(inputs, i).contributions <= RowAt(inputs, j).contributions
  {
    MulWeak(inputs.monthlyContribution * 12.0, j as real, i as real);
    RoundMonotone(ContributedBy(inputs, i), ContributedBy(inputs, j));
  }

  /** The interest is the exact difference before rounding; after rounding
      the three figures of a row disagree by at most one. */
  lemma RoundingGap(inputs: CalculatorInputs, y: nat)
    ensures var row := RowAt(inputs, y);
      -1 <= row.balance - row.contributions - row.interest <= 1
  {
    RoundDifference(BalanceAt(inputs, y), ContributedBy(inputs, y));
  }

  /** At 0% the months only add the deposit. */
  lemma {:induction false} MonthsZeroRate(inputs: CalculatorInputs, b: real, k: nat)
    requires inputs.annualRate == 0.0
    ensures Months(inputs, b, k) == b + k as real * inputs.monthlyContribution
  {
    if k > 0 {
      MonthsZeroRate(inputs, b, k - 1);
    }
  }

  /** At 0% the balance is the principal plus twelve deposits a year, and no
      interest is shown. */
  lemma {:induction false} ZeroRateGrowth(inputs: CalculatorInputs, y: nat)
    requires inputs.annualRate == 0.0
    ensures BalanceAt(inputs, y) == ContributedBy(inputs, y)
    ensures RowAt(inputs, y).interest == 0
    ensures RowAt(inputs, y).balance == RowAt(inputs, y).contributions
  {
    if y > 0 {
      ZeroRateGrowth(inputs, y - 1);
      MonthsZeroRate(inputs, BalanceAt(inputs, y - 1), 12);
    }
  }

  /** With a non-negative rate and deposit, a month adds at least the deposit. */
  lemma {:induction false} MonthsAtLeastDeposits(inputs: CalculatorInputs, b: real, k: nat)
    requires inputs.annualRate >= 0.0 && inputs.monthlyContribution >= 0.0 && b >= 0.0
    ensures Months(inputs, b, k) >= b + k as real * inputs.monthlyContribution
  {
    if k > 0 {
      MonthsAtLeastDeposits(inputs, b, k - 1);
      var prev := Months(inputs, b, k - 1);
      MulWeak(prev, 1.0 + MonthlyRate(inputs), 1.0);
    }
  }

  /** With nothing negative, the balance never falls below what was paid in,
      so the interest shown is never negative. */
  lemma {:induction false} GrowthCoversContributions(inputs: CalculatorInputs, y: nat)
    requires inputs.principal >= 0.0 && inputs.monthlyContribution >= 0.0 && inputs.annualRate >= 0.0
    ensures BalanceAt(inputs, y) >= ContributedBy(inputs, y)
    ensures RowAt(inputs, y).interest >= 0
  {
    if y > 0 {
      GrowthCoversContributions(inputs, y - 1);
      MulWeak(inputs.monthlyContribution, 12.0 * (y - 1) as real, 0.0);
      MonthsAtLeastDeposits(inputs, BalanceAt(inputs, y - 1), 12);
    }
    RoundMonotone(0.0, BalanceAt(inputs, y) - ContributedBy(inputs, y));
  }

  /** The chart's summary is the row of the last year; with a negative
      number of years there is no row and no summary. */
  lemma SummaryIsLastYear(inputs: CalculatorInputs, data: seq<GrowthRow>)
    requires |data| == (if inputs.years >= 0 then inputs.years + 1 else 0)
    requires forall i :: 0 <= i < |data| ==> data[i] == RowAt(inputs, i)
    ensures inputs.years < 0 ==> Summarize(data) == None
    ensures inputs.years >= 0 ==>
      var last := RowAt(inputs, inputs.years);
      Summarize(data) == Some(Summary(last.balance, last.contributions, last.interest))
  {
  }
}
