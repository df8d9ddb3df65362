/** The loan engine of components/visualizations/LoanCalculator.tsx: the
    validated EMI calculation, the amortization schedule, the defaults a
    loan type brings, and the compact number display. Amounts and rates are
    exact reals; the tenure is a whole number of years. */
module LoanEngine {
  import opened Numeric

  // ---------------------------------------------------------------------
  // Loan types

  datatype LoanType = Home | Auto | Personal | Education

  function MinRate(t: LoanType): real
  {
    match t
    case Home => 6.5
    case Auto => 7.0
    case Personal => 10.0
    case Education => 8.0
  }

  function MaxRate(t: LoanType): real
  {
    match t
    case Home => 15.0
    case Auto => 18.0
    case Personal => 24.0
    case Education => 16.0
  }

  function MaxTenure(t: LoanType): nat
  {
    match t
    case Home => 30
    case Auto => 7
    case Personal => 5
    case Education => 15
  }

  function LoanName(t: LoanType): string
  {
    match t
    case Home => "Home Loan"
    case Auto => "Auto Loan"
    case Personal => "Personal Loan"
    case Education => "Education Loan"
  }

  // ---------------------------------------------------------------------
  // calculateLoan

  datatype LoanError =
    | AmountNotPositive
    | RateNegative
    | TenureNotPositive
    | TenureExceedsMaximum(maxTenure: nat, loanName: string)

  datatype LoanCalculation = LoanCalculation(
    emi: real,
    totalInterest: real,
    totalPayment: real,
    isValid: bool,
    errorMessage: Option<LoanError>)

  function DigitChar(d: nat): char
    requires d < 10
  {
    "0123456789"[d]
  }

  /** The decimal digits of a whole number, as a template literal prints it. */
  function NatToString(n: nat): string
  {
    if n < 10 then [DigitChar(n)] else NatToString(n / 10) + [DigitChar(n % 10)]
  }

  /** The text shown for each validation failure. */
  function Message(e: LoanError): string
  {
    match e
    case AmountNotPositive => "Loan amount must be greater than 0"
    case RateNegative => "Interest rate cannot be negative"
    case TenureNotPositive => "Tenure must be greater than 0"
    case TenureExceedsMaximum(m, name) =>
      "Tenure cannot exceed " + NatToString(m) + " years for " + name
  }

  function Invalid(e: LoanError): LoanCalculation
  {
    LoanCalculation(0.0, 0.0, 0.0, false, Some(e))
  }

  /** `rate / 100 / 12`. */
  function MonthlyRate(annualRatePercent: real): real
  {
    annualRatePercent / 100.0 / 12.0
  }

  /** `[P × R × (1+R)^N] / [(1+R)^N – 1]`. */
  function Emi(amount: real, r: real, n: nat): real
    requires r > 0.0 && n >= 1
  {
    PowStrictlyIncreasing(1.0 + r, 0, n);
    amount * r * Pow(1.0 + r, n) / (Pow(1.0 + r, n) - 1.0)
  }

  /** `calculateLoan`: the checks run in order and the first failure wins,
      with its own message and every amount zero; a valid loan at 0% repays
      the amount in equal parts, otherwise the EMI formula applies. */
  function CalculateLoan(amount: real, rate: real, years: int, t: LoanType): (c: LoanCalculation)
    ensures c.isValid <==> amount > 0.0 && rate >= 0.0 && 0 < years <= MaxTenure(t)
    ensures c.isValid <==> c.errorMessage.None?
    ensures !c.isValid ==> c.emi == 0.0 && c.totalInterest == 0.0 && c.totalPayment == 0.0
    ensures amount <= 0.0 ==> c.errorMessage == Some(AmountNotPositive)
    ensures amount > 0.0 && rate < 0.0 ==> c.errorMessage == Some(RateNegative)
    ensures amount > 0.0 && rate >= 0.0 && years <= 0 ==> c.errorMessage == Some(TenureNotPositive)
    ensures amount > 0.0 && rate >= 0.0 && years > MaxTenure(t) ==>
      c.errorMessage == Some(TenureExceedsMaximum(MaxTenure(t), LoanName(t)))
  {
    if amount <= 0.0 then Invalid(AmountNotPositive)
    else if rate < 0.0 then Invalid(RateNegative)
    else if years <= 0 then Invalid(TenureNotPositive)
    else if years > MaxTenure(t) then Invalid(TenureExceedsMaximum(MaxTenure(t), LoanName(t)))
    else if rate == 0.0 then
      LoanCalculation(amount / (years * 12) as real, 0.0, amount, true, None)
    else
      var n := years * 12;
      var emi := Emi(amount, MonthlyRate(rate), n);
      LoanCalculation(emi, emi * n as real - amount, emi * n as real, true, None)
  }

  /** At 0% the instalments add up to the amount and there is no interest. */
  lemma ZeroRateLoan(amount: real, years: int, t: LoanType)
    requires amount > 0.0 && 0 < years <= MaxTenure(t)
    ensures var c := CalculateLoan(amount, 0.0, years, t);
      && c.isValid && c.totalInterest == 0.0 && c.totalPayment == amount
      && c.emi * (years * 12) as real == amount
  {
  }

  /** One step of the growth bound: from r·m·x > x − 1 to the same bound
      one month later, with y = (1 + r)·x. */
  lemma GrowthStep(r: real, m: real, x: real)
    requires r > 0.0 && x >= 1.0 && r * m * x > x - 1.0
    ensures r * (m + 1.0) * ((1.0 + r) * x) > (1.0 + r) * x - 1.0
  {
    var y := (1.0 + r) * x;
    assert r * (m + 1.0) * y == (1.0 + r) * (r * m * x) + r * y;
    MulStrict(1.0 + r, r * m * x, x - 1.0);
    MulWeak(x, 1.0 + r, 1.0);
    MulWeak(r, y, 1.0);
  }

  /** r·n·(1+r)^n exceeds (1+r)^n − 1 for every positive rate and n ≥ 1. */
  lemma {:induction false} InterestExceedsGrowth(r: real, n: nat)
    requires r > 0.0 && n >= 1
    ensures r * n as real * Pow(1.0 + r, n) > Pow(1.0 + r, n) - 1.0
  {
    var x := Pow(1.0 + r, n - 1);
    assert Pow(1.0 + r, n) == (1.0 + r) * x;
    if n > 1 {
      InterestExceedsGrowth(r, n - 1);
      PowAtLeastOne(1.0 + r, n - 1);
      GrowthStep(r, (n - 1) as real, x);
      assert n as real == (n - 1) as real + 1.0;
    } else {
      assert x == 1.0;
      assert r * r > 0.0;
    }
  }

  /** The EMI times the formula's denominator is its numerator. */
  lemma EmiDenominator(amount: real, r: real, n: nat)
    requires r > 0.0 && n >= 1
    ensures Pow(1.0 + r, n) > 1.0
    ensures Emi(amount, r, n) * (Pow(1.0 + r, n) - 1.0) == amount * r * Pow(1.0 + r, n)
  {
    PowStrictlyIncreasing(1.0 + r, 0, n);
    var x := Pow(1.0 + r, n);
    var d := x - 1.0;
    assert Emi(amount, r, n) == (amount * r * x) / d;
    assert ((amount * r * x) / d) * d == amount * r * x;
  }

  /** The EMI is more than an equal share of the amount and more than a
      month's interest on all of it. */
  lemma EmiBounds(amount: real, r: real, e: real, x: real, n: real)
    requires amount > 0.0 && r > 0.0 && x > 1.0
    requires e * (x - 1.0) == amount * r * x
    requires r * n * x > x - 1.0
    ensures e * n > amount && e > amount * r
  {
    assert (e * n) * (x - 1.0) == amount * (r * n * x);
    MulStrict(amount, r * n * x, x - 1.0);
    if e * n <= amount {
      MulWeak(x - 1.0, amount, e * n);
    }
    MulStrict(amount * r, x, x - 1.0);
    if e <= amount * r {
      MulWeak(x - 1.0, amount * r, e);
    }
  }

  /** Above 0% the EMI formula gives `totalPayment = emi × months`,
      `totalInterest = totalPayment − amount`, and the interest is positive:
      the instalment exceeds both an equal share of the amount and the first
      month's interest. */
  lemma PositiveRateLoan(amount: real, rate: real, years: int, t: LoanType)
    requires amount > 0.0 && rate > 0.0 && 0 < years <= MaxTenure(t)
    ensures var c := CalculateLoan(amount, rate, years, t);
      var n := (years * 12) as real;
      && c.isValid
      && c.emi == Emi(amount, MonthlyRate(rate), years * 12)
      && c.totalPayment == c.emi * n
      && c.totalInterest == c.totalPayment - amount
      && c.totalInterest > 0.0
      && c.emi > amount * MonthlyRate(rate)
  {
    var r := MonthlyRate(rate);
    var n := years * 12;
    InterestExceedsGrowth(r, n);
    EmiDenominator(amount, r, n);
    EmiBounds(amount, r, Emi(amount, r, n), Pow(1.0 + r, n), n as real);
  }

  // ---------------------------------------------------------------------
  // generateAmortizationSchedule

  datatype AmortizationEntry = AmortizationEntry(
    month: int, emi: real, principal: real, interest: real, balance: real)

  /** The rows the loop emits from `month` on, starting from `balance`:
      interest on the balance, the rest of the EMI against principal, the
      balance clamped at zero, and a stop right after a row whose balance is
      at most 0.01. */
  function ScheduleFrom(balance: real, r: real, emi: real, month: int, last: int): seq<AmortizationEntry>
    decreases last - month + 1
  {
    if month > last then []
    else
      var interest := balance * r;
      var principal := emi - interest;
      var b := Max(0.0, balance - principal);
      [AmortizationEntry(month, emi, principal, interest, b)]
        + (if b <= 0.01 then [] else ScheduleFrom(b, r, emi, month + 1, last))
  }

  /** The guard: no schedule unless the flag says valid and the inputs are usable. */
  function Schedule(isValid: bool, amount: real, rate: real, years: int, emi: real): seq<AmortizationEntry>
  {
    if !isValid || rate < 0.0 || amount <= 0.0 || years <= 0 then []
    else ScheduleFrom(amount, MonthlyRate(rate), emi, 1, years * 12)
  }

  /** `generateAmortizationSchedule`; `isValid` is the validity flag it reads. */
  method GenerateAmortizationSchedule(isValid: bool, amount: real, rate: real, years: int, emi: real)
    returns (schedule: seq<AmortizationEntry>)
    ensures schedule == Schedule(isValid, amount, rate, years, emi)
  {
    if !isValid || rate < 0.0 || amount <= 0.0 || years <= 0 {
      return [];
    }
    var monthlyRate := rate / 100.0 / 12.0;
    schedule := AmortizationRows(amount, monthlyRate, emi, years * 12);
  }

  /** The loop of `generateAmortizationSchedule`, month 1 to `last`. */
  method AmortizationRows(amount: real, monthlyRate: real, emi: real, last: int)
    returns (schedule: seq<AmortizationEntry>)
    requires last >= 1
    ensures schedule == ScheduleFrom(amount, monthlyRate, emi, 1, last)
  {
    schedule := [];
    var remainingBalance := amount;
    var month := 1;
    while month <= last
      invariant 1 <= month <= last + 1
      invariant schedule + ScheduleFrom(remainingBalance, monthlyRate, emi, month, last)
             == ScheduleFrom(amount, monthlyRate, emi, 1, last)
      decreases last - month
    {
      ScheduleAppend(schedule, remainingBalance, monthlyRate, emi, month, last,
        ScheduleFrom(amount, monthlyRate, emi, 1, last));
      var interestPayment := remainingBalance * monthlyRate;
      var principalPayment := emi - interestPayment;
      remainingBalance := Max(0.0, remainingBalance - principalPayment);
      var entry := AmortizationEntry(month, emi, principalPayment, interestPayment, remainingBalance);
      if remainingBalance <= 0.01 {
        schedule := schedule + [entry];
        break;
      }
      schedule := schedule + [entry];
      month := month + 1;
    }
  }

  /** One turn of the loop: the rows emitted so far followed by the rows
      still to come from `balance` make up the whole schedule, and after
      emitting the next row this still holds (or the schedule is complete,
      when that row's balance is at most 0.01). */
  lemma ScheduleAppend(done: seq<AmortizationEntry>, balance: real, r: real, emi: real,
                       month: int, last: int, total: seq<AmortizationEntry>)
    requires month <= last
    requires done + ScheduleFrom(balance, r, emi, month, last) == total
    ensures var b := Max(0.0, balance - (emi - balance * r));
      var entry := AmortizationEntry(month, emi, emi - balance * r, balance * r, b);
      && (b <= 0.01 ==> done + [entry] == total)
      && (b > 0.01 ==> (done + [entry]) + ScheduleFrom(b, r, emi, month + 1, last) == total)
  {
    var b := Max(0.0, balance - (emi - balance * r));
    var entry := AmortizationEntry(month, emi, emi - balance * r, balance * r, b);
    var tail := if b <= 0.01 then [] else ScheduleFrom(b, r, emi, month + 1, last);
    assert ScheduleFrom(balance, r, emi, month, last) == [entry] + tail;
    assert done + ([entry] + tail) == (done + [entry]) + tail;
  }

  /** Whatever the EMI: months run on consecutively from `month`, there are
      no more rows than months left, every row splits the EMI into interest
      and principal with the interest charged on the previous balance, no
      balance is negative, and only the last row may be at most 0.01. */
  lemma ScheduleShape(balance: real, r: real, emi: real, month: int, last: int)
    requires month <= last + 1
    ensures var s := ScheduleFrom(balance, r, emi, month, last);
      && |s| <= last - month + 1
      && (month <= last ==> |s| >= 1 && s[0].interest == balance * r)
      && (forall i :: 0 <= i < |s| ==> s[i].month == month + i)
      && (forall i :: 0 <= i < |s| ==> s[i].interest + s[i].principal == emi && s[i].emi == emi)
      && (forall i :: 0 <= i < |s| ==> s[i].balance >= 0.0)
      && (forall i :: 0 <= i < |s| - 1 ==> s[i].balance > 0.01)
      && (forall i :: 0 <= i < |s| - 1 ==> s[i + 1].interest == s[i].balance * r)
  {
    ScheduleRows(balance, r, emi, month, last);
    ScheduleChain(balance, r, emi, month, last);
  }

  /** Each row on its own: its month, the EMI split, a non-negative balance. */
  lemma {:induction false} ScheduleRows(balance: real, r: real, emi: real, month: int, last: int)
    requires month <= last + 1
    ensures var s := ScheduleFrom(balance, r, emi, month, last);
      && |s| <= last - month + 1
      && (month <= last ==> |s| >= 1 && s[0].interest == balance * r)
      && (forall i :: 0 <= i < |s| ==> s[i].month == month + i)
      && (forall i :: 0 <= i < |s| ==> s[i].interest + s[i].principal == emi && s[i].emi == emi)
      && (forall i :: 0 <= i < |s| ==> s[i].balance >= 0.0)
    decreases last - month + 1
  {
    if month <= last {
      var b := Max(0.0, balance - (emi - balance * r));
      if b > 0.01 {
        ScheduleRows(b, r, emi, month + 1, last);
      }
    }
  }

  /** Consecutive rows: every row but the last leaves more than 0.01, and
      the next row charges interest on it. */
  predicate Chained(s: seq<AmortizationEntry>, r: real)
  {
    forall i :: 0 <= i < |s| - 1 ==> s[i].balance > 0.01 && s[i + 1].interest == s[i].balance * r
  }

  /** A row leaving more than 0.01 stays chained in front of rows that
      start by charging interest on it. */
  lemma ChainedCons(entry: AmortizationEntry, tail: seq<AmortizationEntry>, r: real)
    requires Chained(tail, r) && entry.balance > 0.01
    requires |tail| > 0 ==> tail[0].interest == entry.balance * r
    ensures Chained([entry] + tail, r)
  {
    var s := [entry] + tail;
    forall i | 0 <= i < |s| - 1
      ensures s[i].balance > 0.01 && s[i + 1].interest == s[i].balance * r
    {
      if i > 0 {
        var j := i - 1;
        assert s[i] == tail[j] && s[i + 1] == tail[j + 1];
      }
    }
  }

  lemma {:induction false} ScheduleChain(balance: real, r: real, emi: real, month: int, last: int)
    ensures Chained(ScheduleFrom(balance, r, emi, month, last), r)
    decreases last - month + 1
  {
    if month <= last {
      var b := Max(0.0, balance - (emi - balance * r));
      if b > 0.01 {
        ScheduleChain(b, r, emi, month + 1, last);
        var tail := ScheduleFrom(b, r, emi, month + 1, last);
        var entry := AmortizationEntry(month, emi, emi - balance * r, balance * r, b);
        assert ScheduleFrom(balance, r, emi, month, last) == [entry] + tail;
        ChainedCons(entry, tail, r);
      }
    }
  }

  /** The schedule is empty exactly when the guard refuses. */
  lemma ScheduleGuard(isValid: bool, amount: real, rate: real, years: int, emi: real)
    ensures Schedule(isValid, amount, rate, years, emi) == []
        <==> !isValid || rate < 0.0 || amount <= 0.0 || years <= 0
  {
    if isValid && rate >= 0.0 && amount > 0.0 && years > 0 {
      ScheduleShape(amount, MonthlyRate(rate), emi, 1, years * 12);
    }
  }

  // ---------------------------------------------------------------------
  // The schedule of a valid loan pays it off

  /** The balance after `k` months with no clamp: b ↦ b·(1 + r) − emi. */
  function Balance(amount: real, r: real, emi: real, k: nat): real
  {
    if k == 0 then amount else Balance(amount, r, emi, k - 1) * (1.0 + r) - emi
  }

  /** One month of the annuity identity, on plain numbers. */
  lemma AnnuityStep(amount: real, r: real, emi: real, b: real, x: real, b': real, x': real)
    requires b * r == amount * r * x - emi * (x - 1.0)
    requires b' == b * (1.0 + r) - emi && x' == (1.0 + r) * x
    ensures b' * r == amount * r * x' - emi * (x' - 1.0)
  {
    assert b' * r == (b * r) * (1.0 + r) - emi * r;
    assert (amount * r * x - emi * (x - 1.0)) * (1.0 + r) - emi * r
        == amount * r * ((1.0 + r) * x) - emi * ((1.0 + r) * x - 1.0);
  }

  /** The annuity identity: r·B(k) = P·r·(1+r)^k − emi·((1+r)^k − 1). */
  lemma {:induction false} BalanceIdentity(amount: real, r: real, emi: real, k: nat)
    ensures Balance(amount, r, emi, k) * r == amount * r * Pow(1.0 + r, k) - emi * (Pow(1.0 + r, k) - 1.0)
  {
    if k > 0 {
      var b, x := Balance(amount, r, emi, k - 1), Pow(1.0 + r, k - 1);
      var b', x' := Balance(amount, r, emi, k), Pow(1.0 + r, k);
      assert b * r == amount * r * x - emi * (x - 1.0) by {
        BalanceIdentity(amount, r, emi, k - 1);
      }
      assert b' == b * (1.0 + r) - emi && x' == (1.0 + r) * x;
      AnnuityStep(amount, r, emi, b, x, b', x');
    }
  }

  /** The closed form, on plain numbers: eliminate the EMI and divide by r. */
  lemma ClosedFormAlgebra(amount: real, r: real, emi: real, b: real, xn: real, xk: real)
    requires r > 0.0
    requires emi * (xn - 1.0) == amount * r * xn
    requires b * r == amount * r * xk - emi * (xk - 1.0)
    ensures b * (xn - 1.0) == amount * (xn - xk)
  {
    assert (b * r) * (xn - 1.0) == amount * r * xk * (xn - 1.0) - (emi * (xn - 1.0)) * (xk - 1.0);
    assert (b * r) * (xn - 1.0) == amount * r * xk * (xn - 1.0) - amount * r * xn * (xk - 1.0);
    assert (b * (xn - 1.0)) * r == (amount * (xn - xk)) * r;
  }

  /** For an EMI that solves the annuity equation over `n` months,
      B(k)·((1+r)^n − 1) = P·((1+r)^n − (1+r)^k). */
  lemma BalanceClosedForm(amount: real, r: real, emi: real, n: nat, k: nat)
    requires r > 0.0
    requires emi * (Pow(1.0 + r, n) - 1.0) == amount * r * Pow(1.0 + r, n)
    ensures Balance(amount, r, emi, k) * (Pow(1.0 + r, n) - 1.0)
        == amount * (Pow(1.0 + r, n) - Pow(1.0 + r, k))
  {
    var b, xn, xk := Balance(amount, r, emi, k), Pow(1.0 + r, n), Pow(1.0 + r, k);
    assert b * r == amount * r * xk - emi * (xk - 1.0) by { BalanceIdentity(amount, r, emi, k); }
    ClosedFormAlgebra(amount, r, emi, b, xn, xk);
  }

  /** At 0% the balance falls by the EMI each month. */
  lemma {:induction false} BalanceZeroRate(amount: real, emi: real, k: nat)
    ensures Balance(amount, 0.0, emi, k) == amount - k as real * emi
  {
    if k > 0 {
      BalanceZeroRate(amount, emi, k - 1);
    }
  }

  lemma PowMonotone(b: real, i: nat, j: nat)
    requires b > 1.0 && i <= j
    ensures Pow(b, i) <= Pow(b, j)
  {
    if i < j {
      PowStrictlyIncreasing(b, i, j);
    }
  }

  /** Equal instalments of `amount/n`, on plain numbers: what is left after
      `i` and `j ≥ i` of the `n` instalments. */
  lemma InstalmentOrder(amount: real, e: real, n: real, i: real, j: real)
    requires amount > 0.0 && n >= 1.0 && 0.0 <= i <= j <= n
    requires e == amount / n
    ensures 0.0 <= amount - j * e <= amount - i * e
    ensures amount - n * e == 0.0
  {
    assert e * n == amount;
    assert e > 0.0 by {
      ScaledOrder(0.0, e, n, 0.0, amount);
      assert e != 0.0;
    }
    MulWeak(e, n, j);
    MulWeak(e, j, i);
  }

  /** At 0% with the EMI amount/n, the balance falls from the amount to zero. */
  lemma ZeroRateBalances(amount: real, n: nat, i: nat, j: nat)
    requires amount > 0.0 && n >= 1 && i <= j <= n
    ensures var e := amount / n as real;
      && 0.0 <= Balance(amount, 0.0, e, j) <= Balance(amount, 0.0, e, i)
      && Balance(amount, 0.0, e, n) == 0.0
  {
    var e := amount / n as real;
    assert Balance(amount, 0.0, e, i) == amount - i as real * e by { BalanceZeroRate(amount, e, i); }
    assert Balance(amount, 0.0, e, j) == amount - j as real * e by { BalanceZeroRate(amount, e, j); }
    assert Balance(amount, 0.0, e, n) == amount - n as real * e by { BalanceZeroRate(amount, e, n); }
    InstalmentOrder(amount, e, n as real, i as real, j as real);
  }

  /** Above 0%, an EMI solving the annuity equation over `n` months leaves
      a balance that is never negative within the term. */
  lemma AnnuityBalanceNonNegative(amount: real, r: real, emi: real, n: nat, k: nat)
    requires amount > 0.0 && r > 0.0 && n >= 1 && k <= n
    requires emi * (Pow(1.0 + r, n) - 1.0) == amount * r * Pow(1.0 + r, n)
    ensures 0.0 <= Balance(amount, r, emi, k)
  {
    var xn, xk, bk := Pow(1.0 + r, n), Pow(1.0 + r, k), Balance(amount, r, emi, k);
    assert xn > 1.0 by { PowStrictlyIncreasing(1.0 + r, 0, n); }
    assert xk <= xn by { PowMonotone(1.0 + r, k, n); }
    assert bk * (xn - 1.0) == amount * (xn - xk) by { BalanceClosedForm(amount, r, emi, n, k); }
    ClosedFormSign(amount, bk, xn, xk);
  }

  /** The sign of the closed form, on plain numbers. */
  lemma ClosedFormSign(amount: real, b: real, xn: real, xk: real)
    requires amount > 0.0 && xn > 1.0 && xk <= xn
    requires b * (xn - 1.0) == amount * (xn - xk)
    ensures 0.0 <= b
  {
    MulWeak(amount, xn - xk, 0.0);
    ScaledOrder(0.0, b, xn - 1.0, 0.0, amount * (xn - xk));
  }

  /** One month on plain numbers: when the payment covers the interest on
      the amount, the balance after the month is no larger than before. */
  lemma StepDownAlgebra(amount: real, r: real, emi: real, b: real, x: real)
    requires x >= 1.0 && emi >= amount * r
    requires b * r == amount * r * x - emi * (x - 1.0)
    ensures b * (1.0 + r) - emi <= b
  {
    assert b * r == emi - (emi - amount * r) * x;
    MulWeak(emi - amount * r, x, 0.0);
  }

  /** A payment that covers the interest on the amount never lets the
      unclamped balance rise from one month to the next. */
  lemma BalanceStepDown(amount: real, r: real, emi: real, k: nat)
    requires r >= 0.0 && emi >= amount * r
    ensures Balance(amount, r, emi, k + 1) <= Balance(amount, r, emi, k)
  {
    var b, x := Balance(amount, r, emi, k), Pow(1.0 + r, k);
    assert b * r == amount * r * x - emi * (x - 1.0) by { BalanceIdentity(amount, r, emi, k); }
    assert x >= 1.0 by { PowAtLeastOne(1.0 + r, k); }
    StepDownAlgebra(amount, r, emi, b, x);
  }

  /** Hence the balance never rises over any stretch of months. */
  lemma {:induction false} BalanceNonIncreasing(amount: real, r: real, emi: real, i: nat, j: nat)
    requires r >= 0.0 && emi >= amount * r && i <= j
    ensures Balance(amount, r, emi, j) <= Balance(amount, r, emi, i)
    decreases j - i
  {
    if i < j {
      BalanceNonIncreasing(amount, r, emi, i, j - 1);
      BalanceStepDown(amount, r, emi, j - 1);
    }
  }

  /** Above 0%, an EMI solving the annuity equation over `n` months pays
      the loan off exactly after month `n`. */
  lemma AnnuityPaidOff(amount: real, r: real, emi: real, n: nat)
    requires r > 0.0 && n >= 1
    requires emi * (Pow(1.0 + r, n) - 1.0) == amount * r * Pow(1.0 + r, n)
    ensures Balance(amount, r, emi, n) == 0.0
  {
    var xn, bn := Pow(1.0 + r, n), Balance(amount, r, emi, n);
    assert xn > 1.0 by { PowStrictlyIncreasing(1.0 + r, 0, n); }
    assert bn * (xn - 1.0) == 0.0 by { BalanceClosedForm(amount, r, emi, n, n); }
    ScaledOrder(bn, 0.0, xn - 1.0, 0.0, 0.0);
    ScaledOrder(0.0, bn, xn - 1.0, 0.0, 0.0);
  }

  /** Above 0%, any EMI solving the annuity equation over `n` months takes
      the balance from the amount down to zero without ever raising it. */
  lemma AnnuityBalances(amount: real, r: real, emi: real, n: nat, i: nat, j: nat)
    requires amount > 0.0 && r > 0.0 && n >= 1 && i <= j <= n
    requires emi * (Pow(1.0 + r, n) - 1.0) == amount * r * Pow(1.0 + r, n)
    ensures 0.0 <= Balance(amount, r, emi, j) <= Balance(amount, r, emi, i)
    ensures Balance(amount, r, emi, n) == 0.0
  {
    AnnuityBalanceNonNegative(amount, r, emi, n, j);
    AnnuityPaidOff(amount, r, emi, n);
    var x := Pow(1.0 + r, n);
    assert x > 1.0 by { PowStrictlyIncreasing(1.0 + r, 0, n); }
    var months := n as real;
    assert r * months * x > x - 1.0 by { InterestExceedsGrowth(r, n); }
    EmiBounds(amount, r, emi, x, months);
    BalanceNonIncreasing(amount, r, emi, i, j);
  }

  /** Above 0% with the formula's EMI, the balance falls from the amount to zero. */
  lemma PositiveRateBalances(amount: real, r: real, n: nat, i: nat, j: nat)
    requires amount > 0.0 && r > 0.0 && n >= 1 && i <= j <= n
    ensures var e := Emi(amount, r, n);
      && 0.0 <= Balance(amount, r, e, j) <= Balance(amount, r, e, i)
      && Balance(amount, r, e, n) == 0.0
  {
    var e, x := Emi(amount, r, n), Pow(1.0 + r, n);
    assert e * (x - 1.0) == amount * r * x by { EmiDenominator(amount, r, n); }
    AnnuityBalances(amount, r, e, n, i, j);
  }

  /** For the EMI `calculateLoan` gives, the unclamped balance is never
      negative within the term, never rises, and is exactly zero after the
      last month. */
  lemma ValidLoanBalances(amount: real, rate: real, years: int, t: LoanType, i: nat, j: nat)
    requires CalculateLoan(amount, rate, years, t).isValid
    requires i <= j <= years * 12
    ensures var r, e := MonthlyRate(rate), CalculateLoan(amount, rate, years, t).emi;
      && 0.0 <= Balance(amount, r, e, j) <= Balance(amount, r, e, i)
      && Balance(amount, r, e, years * 12) == 0.0
  {
    if rate == 0.0 {
      assert MonthlyRate(rate) == 0.0;
      ZeroRateBalances(amount, years * 12, i, j);
    } else {
      PositiveRateBalances(amount, MonthlyRate(rate), years * 12, i, j);
    }
  }

  /** One row of the schedule when the clamp does not fire. */
  lemma ScheduleStep(b: real, r: real, emi: real, month: int, last: int, next: real)
    requires month <= last && next == b * (1.0 + r) - emi && next >= 0.0
    ensures ScheduleFrom(b, r, emi, month, last)
         == [AmortizationEntry(month, emi, emi - b * r, b * r, next)]
          + (if next <= 0.01 then [] else ScheduleFrom(next, r, emi, month + 1, last))
  {
    assert b - (emi - b * r) == next;
  }

  /** While the schedule follows a balance that stays between zero and its
      previous value up to month `last`, where it is zero, the clamp never
      fires, the balances never rise, and the last row is paid off to within
      0.01. */
  lemma {:induction false} ScheduleFollowsBalance(amount: real, r: real, emi: real, k: nat, last: nat)
    requires k < last
    requires forall i, j :: k <= i <= j <= last ==>
      0.0 <= Balance(amount, r, emi, j) <= Balance(amount, r, emi, i)
    requires Balance(amount, r, emi, last) == 0.0
    ensures var s := ScheduleFrom(Balance(amount, r, emi, k), r, emi, k + 1, last);
      && |s| >= 1
      && s[|s| - 1].balance <= 0.01
      && s[0].balance <= Balance(amount, r, emi, k)
      && (forall i :: 0 <= i < |s| - 1 ==> s[i + 1].balance <= s[i].balance)
    decreases last - k
  {
    var bk := Balance(amount, r, emi, k);
    var next := Balance(amount, r, emi, k + 1);
    assert 0.0 <= next <= bk;
    var entry := ScheduleHead(amount, r, emi, k, last);
    if next > 0.01 {
      var rest := ScheduleFrom(next, r, emi, k + 2, last);
      assert k + 1 < last;
      assert && |rest| >= 1
             && rest[|rest| - 1].balance <= 0.01
             && rest[0].balance <= next
             && (forall i :: 0 <= i < |rest| - 1 ==> rest[i + 1].balance <= rest[i].balance) by {
        ScheduleFollowsBalance(amount, r, emi, k + 1, last);
      }
      PrependKeepsOrder(entry, rest);
    }
  }

  /** The first row the schedule emits from the month-`k` balance, when
      the month-`k+1` balance is not negative. */
  lemma ScheduleHead(amount: real, r: real, emi: real, k: nat, last: nat)
    returns (entry: AmortizationEntry)
    requires k < last && 0.0 <= Balance(amount, r, emi, k + 1)
    ensures entry.balance == Balance(amount, r, emi, k + 1)
    ensures var next := Balance(amount, r, emi, k + 1);
      ScheduleFrom(Balance(amount, r, emi, k), r, emi, k + 1, last)
        == [entry] + (if next <= 0.01 then [] else ScheduleFrom(next, r, emi, k + 2, last))
  {
    var bk := Balance(amount, r, emi, k);
    var next := Balance(amount, r, emi, k + 1);
    entry := AmortizationEntry(k + 1, emi, emi - bk * r, bk * r, next);
    ScheduleStep(bk, r, emi, k + 1, last, next);
  }

  /** A row whose balance is at least the next one's, put in front of rows
      whose balances never rise, gives rows whose balances never rise. */
  lemma PrependKeepsOrder(entry: AmortizationEntry, rest: seq<AmortizationEntry>)
    requires |rest| >= 1 && rest[0].balance <= entry.balance
    requires forall i :: 0 <= i < |rest| - 1 ==> rest[i + 1].balance <= rest[i].balance
    ensures var s := [entry] + rest;
      && s[|s| - 1] == rest[|rest| - 1]
      && (forall i :: 0 <= i < |s| - 1 ==> s[i + 1].balance <= s[i].balance)
  {
    var s := [entry] + rest;
    forall i | 0 <= i < |s| - 1
      ensures s[i + 1].balance <= s[i].balance
    {
      if i > 0 {
        assert s[i] == rest[i - 1] && s[i + 1] == rest[i];
      }
    }
  }

  /** The schedule of a valid loan, built with its own EMI, ends paid off
      to within 0.01, its balances never rise and start at or below the
      amount, and it has at most one row per month of the term. */
  lemma ValidLoanIsPaidOff(amount: real, rate: real, years: int, t: LoanType)
    requires CalculateLoan(amount, rate, years, t).isValid
    ensures var s := Schedule(true, amount, rate, years, CalculateLoan(amount, rate, years, t).emi);
      && 1 <= |s| <= years * 12
      && s[|s| - 1].balance <= 0.01
      && s[0].balance <= amount
      && (forall i :: 0 <= i < |s| - 1 ==> s[i + 1].balance <= s[i].balance)
  {
    var r, e, n := MonthlyRate(rate), CalculateLoan(amount, rate, years, t).emi, years * 12;
    forall i: nat, j: nat | i <= j <= n
      ensures 0.0 <= Balance(amount, r, e, j) <= Balance(amount, r, e, i)
    {
      ValidLoanBalances(amount, rate, years, t, i, j);
    }
    ValidLoanBalances(amount, rate, years, t, 0, 0);
    ScheduleFollowsBalance(amount, r, e, 0, n);
    ScheduleShape(amount, r, e, 1, n);
  }

  // ---------------------------------------------------------------------
  // The recalculation effect and the validity flag it passes

  /** The effect on amount, rate and tenure as written: the schedule's guard
      reads `calculation.isValid` of the render the effect was created in
      (`staleValid`), not the result just computed. */
  function RecalculateAsWritten(staleValid: bool, amount: real, rate: real, years: int, t: LoanType)
    : (LoanCalculation, seq<AmortizationEntry>)
  {
    var c := CalculateLoan(amount, rate, years, t);
    (c, if c.isValid then Schedule(staleValid, amount, rate, years, c.emi) else [])
  }

  /** The effect with the guard reading the fresh result. */
  function Recalculate(amount: real, rate: real, years: int, t: LoanType)
    : (LoanCalculation, seq<AmortizationEntry>)
  {
    var c := CalculateLoan(amount, rate, years, t);
    (c, if c.isValid then Schedule(c.isValid, amount, rate, years, c.emi) else [])
  }

  /** As written: after an invalid render (here the initial state, or a
      tenure above the maximum), correcting the inputs shows the EMI but an
      empty schedule. */
  lemma StaleFlagHidesSchedule()
    ensures RecalculateAsWritten(false, 500000.0, 8.5, 20, Home).0.isValid
    ensures RecalculateAsWritten(false, 500000.0, 8.5, 20, Home).1 == []
  {
  }

  /** Corrected: every valid calculation comes with a schedule that pays the
      loan off; the two agree whenever the previous render was valid. */
  lemma FreshFlagShowsSchedule(staleValid: bool, amount: real, rate: real, years: int, t: LoanType)
    ensures var (c, s) := Recalculate(amount, rate, years, t);
      && (c.isValid <==> s != [])
      && (c.isValid ==> s[|s| - 1].balance <= 0.01)
    ensures staleValid ==> RecalculateAsWritten(staleValid, amount, rate, years, t) == Recalculate(amount, rate, years, t)
  {
    var c := CalculateLoan(amount, rate, years, t);
    if c.isValid {
      ValidLoanIsPaidOff(amount, rate, years, t);
    }
  }

  // ---------------------------------------------------------------------
  // Loan-type defaults

  /** The effect on the loan type: rate one point above the type's minimum,
      tenure ten years or the type's maximum if that is shorter. */
  function LoanTypeDefaults(t: LoanType): (real, int)
  {
    (MinRate(t) + 1.0, if 10 <= MaxTenure(t) then 10 else MaxTenure(t))
  }

  /** The defaults are within the type's rate range and never fail the
      tenure checks, so any positive amount gives a valid calculation. */
  lemma DefaultsAreValid(t: LoanType, amount: real)
    requires amount > 0.0
    ensures var (rate, tenure) := LoanTypeDefaults(t);
      && MinRate(t) <= rate <= MaxRate(t)
      && 0 < tenure <= MaxTenure(t)
      && CalculateLoan(amount, rate, tenure, t).isValid
  {
  }

  // ---------------------------------------------------------------------
  // formatLargeNumber

  /** The rounding of `toFixed` and `toLocaleString`: halves away from zero. */
  function RoundHalfExpand(x: real): int
  {
    if x >= 0.0 then Round(x) else -Round(-x)
  }

  /** A formatted value: the suffix chosen and the number shown before it,
      in tenths for "B" and "M", in whole units for "K" and plain numbers. */
  datatype Display =
    | Billions(tenths: int)
    | Millions(tenths: int)
    | Thousands(units: int)
    | Plain(units: int)

  /** `formatLargeNumber` as written. */
  function FormatLargeNumber(v: real): Display
  {
    if v >= 1000000000.0 then Billions(RoundHalfExpand(v / 1000000000.0 * 10.0))
    else if v >= 1000000.0 then
      if v >= 999500000.0 then Billions(RoundHalfExpand(v / 1000000000.0 * 10.0))
      else Millions(RoundHalfExpand(v / 1000000.0 * 10.0))
    else if v >= 100000.0 then Thousands(RoundHalfExpand(v / 1000.0))
    else Plain(RoundHalfExpand(v))
  }

  /** The suffix partitions the line by thresholds, and the 999.5M guard
      keeps a millions figure below 1000.0M. */
  lemma FormatThresholds(v: real)
    ensures FormatLargeNumber(v).Billions? <==> v >= 999500000.0
    ensures FormatLargeNumber(v).Millions? <==> 1000000.0 <= v < 999500000.0
    ensures FormatLargeNumber(v).Thousands? <==> 100000.0 <= v < 1000000.0
    ensures FormatLargeNumber(v).Plain? <==> v < 100000.0
    ensures FormatLargeNumber(v).Millions? ==> 10 <= FormatLargeNumber(v).tenths < 10000
  {
  }

  /** As written, the thousands branch has no such guard: 999,500 shows as "1000K". */
  lemma ThousandsShowsOneThousand()
    ensures FormatLargeNumber(999500.0) == Thousands(1000)
  {
  }

  /** `formatLargeNumber` with the guard carried down to the thousands: a
      value that would round to 1000K is shown in millions. */
  function FormatLargeNumberGuarded(v: real): Display
  {
    if v >= 1000000000.0 then Billions(RoundHalfExpand(v / 1000000000.0 * 10.0))
    else if v >= 999500.0 then
      if v >= 999500000.0 then Billions(RoundHalfExpand(v / 1000000000.0 * 10.0))
      else Millions(RoundHalfExpand(v / 1000000.0 * 10.0))
    else if v >= 100000.0 then Thousands(RoundHalfExpand(v / 1000.0))
    else Plain(RoundHalfExpand(v))
  }

  /** With the guard no figure reaches the next suffix's unit: thousands
      stay below 1000K and millions below 1000.0M, and outside the band
      [999,500, 1,000,000) it agrees with the function as written. */
  lemma GuardedFormatStaysBelowNextUnit(v: real)
    ensures FormatLargeNumberGuarded(v).Thousands? ==> 100 <= FormatLargeNumberGuarded(v).units < 1000
    ensures FormatLargeNumberGuarded(v).Millions? ==> 10 <= FormatLargeNumberGuarded(v).tenths < 10000
    ensures FormatLargeNumberGuarded(v).Millions? <==> 999500.0 <= v < 999500000.0
    ensures !(999500.0 <= v < 1000000.0) ==> FormatLargeNumberGuarded(v) == FormatLargeNumber(v)
  {
  }
}
