/**
  The net-pay calculation: it normalises the gross salary to a month, adds
  the allowances to get the taxable income, takes PAYE and the employee's
  NSSF share from it together with the loan and savings deductions, and
  reports every intermediate amount.  Net pay is not clamped: it is negative
  when the deductions exceed the earnings.
 */
module Payroll {
  import opened Inputs
  import Paye
  import Nssf

  /** Every amount the calculation reports, in UGX per month. */
  datatype PayResult = PayResult(
    grossSalary: real,
    totalAllowances: real,
    taxableIncome: real,
    paye: real,
    employeeNssf: real,
    employerNssf: real,
    totalOtherDeductions: real,
    totalDeductions: real,
    netPay: real
  )

  /** The outcome of pressing "calculate": the form's errors, or the computed result. */
  datatype Outcome = Rejected(errors: seq<FieldError>) | Computed(result: PayResult)

  /** The monthly gross: an annual salary is divided by 12. */
  function MonthlyGross(gross: real, period: Period): (monthly: real)
    ensures period == Monthly ==> monthly == gross
    ensures period == Annual ==> 12.0 * monthly == gross
  {
    if period == Annual then gross / 12.0 else gross
  }

  /**
    `calculateSalary`.  It runs only after validation has found a parsable
    gross salary.  The reported amounts hang together: taxable income is
    gross plus allowances; PAYE and the NSSF shares are taken on the taxable
    income; total deductions are PAYE, the employee's share and the other
    deductions; net pay is what remains of gross plus allowances.  The
    employer's share is reported but never deducted.
   */
  function CalculateSalary(f: Form): (r: PayResult)
    requires f.grossSalary.Some?
    ensures PeriodOf(f.salaryPeriod) == Annual ==> 12.0 * r.grossSalary == f.grossSalary.value
    ensures PeriodOf(f.salaryPeriod) == Monthly ==> r.grossSalary == f.grossSalary.value
    ensures r.totalAllowances
         == GetValidatedNumber(f.housing, 0.0) + GetValidatedNumber(f.transport, 0.0)
            + GetValidatedNumber(f.medical, 0.0) + GetValidatedNumber(f.otherAllowance, 0.0)
    ensures r.totalOtherDeductions == GetValidatedNumber(f.loan, 0.0) + GetValidatedNumber(f.savings, 0.0)
    ensures 0.0 <= r.totalAllowances && 0.0 <= r.totalOtherDeductions
    ensures r.taxableIncome == r.grossSalary + r.totalAllowances
    ensures r.paye == Paye.ClosedForm(r.taxableIncome)
    ensures Nssf.Contribution(r.employeeNssf, r.employerNssf)
         == Nssf.CalculateNssf(r.taxableIncome, Nssf.TierOf(f.nssfTier))
    ensures r.totalDeductions == r.paye + r.employeeNssf + r.totalOtherDeductions
    ensures r.netPay == r.grossSalary + r.totalAllowances - (r.paye + r.employeeNssf + r.totalOtherDeductions)
  {
    var grossSalary := MonthlyGross(f.grossSalary.value, PeriodOf(f.salaryPeriod));
    var housing := GetValidatedNumber(f.housing, 0.0);
    var transport := GetValidatedNumber(f.transport, 0.0);
    var medical := GetValidatedNumber(f.medical, 0.0);
    var otherAllowance := GetValidatedNumber(f.otherAllowance, 0.0);
    var totalAllowances := housing + transport + medical + otherAllowance;
    var loan := GetValidatedNumber(f.loan, 0.0);
    var savings := GetValidatedNumber(f.savings, 0.0);
    var totalOtherDeductions := loan + savings;
    var taxableIncome := grossSalary + totalAllowances;
    var paye := Paye.Tax(taxableIncome);
    var nssf := Nssf.CalculateNssf(taxableIncome, Nssf.TierOf(f.nssfTier));
    var totalDeductions := paye + nssf.employee + totalOtherDeductions;
    var netPay := grossSalary + totalAllowances - totalDeductions;
    Paye.TaxMatchesClosedForm(taxableIncome);
    PayResult(grossSalary, totalAllowances, taxableIncome, paye, nssf.employee, nssf.employer,
              totalOtherDeductions, totalDeductions, netPay)
  }

  /**
    `validateAndCalculate`: an unacceptable form reports its errors and
    computes nothing; an acceptable one is calculated.  On accepted input
    the taxable income is non-negative, so PAYE is at most 40% of it, and
    PAYE plus the employee's NSSF share never take more than half of it.
   */
  function ValidateAndCalculate(f: Form): (o: Outcome)
    ensures o.Computed? <==> Acceptable(f)
    ensures o.Rejected? ==> o.errors == Validate(f) && |o.errors| > 0
    ensures o.Computed? ==> o.result == CalculateSalary(f)
    ensures o.Computed? ==> 0.0 <= o.result.grossSalary <= o.result.taxableIncome
    ensures o.Computed? ==> 0.0 <= o.result.paye <= Paye.TopRate * o.result.taxableIncome
    ensures o.Computed? ==> o.result.netPay + o.result.totalOtherDeductions >= 0.5 * o.result.taxableIncome
  {
    var errors := Validate(f);
    if |errors| > 0 then Rejected(errors)
    else
      var r := CalculateSalary(f);
      Paye.TaxBounds(r.taxableIncome);
      Nssf.SharesBounded(Nssf.TierOf(f.nssfTier), r.taxableIncome);
      Computed(r)
  }

  // ---------------------------------------------------------------------
  // Properties of the calculation
  // ---------------------------------------------------------------------

  /** An annual salary of `12 * g` gives exactly the result of a monthly salary of `g`. */
  lemma AnnualIsTwelveMonths(f: Form, g: real, monthly: string)
    requires PeriodOf(monthly) == Monthly
    ensures CalculateSalary(f.(grossSalary := Some(12.0 * g), salaryPeriod := "annual"))
         == CalculateSalary(f.(grossSalary := Some(g), salaryPeriod := monthly))
  {
    var a := f.(grossSalary := Some(12.0 * g), salaryPeriod := "annual");
    assert MonthlyGross(12.0 * g, PeriodOf(a.salaryPeriod)) == g;
  }

  /** Tier II never leaves more net pay, and leaves less exactly above the threshold. */
  lemma Tier2NetPay(f: Form)
    requires f.grossSalary.Some?
    ensures CalculateSalary(f.(nssfTier := "tier2")).netPay <= CalculateSalary(f.(nssfTier := "tier1")).netPay
    ensures CalculateSalary(f.(nssfTier := "tier2")).netPay == CalculateSalary(f.(nssfTier := "tier1")).netPay
        <==> CalculateSalary(f).taxableIncome <= Nssf.Tier1Limit
  {
  }

  /** A larger loan lowers net pay by exactly the increase and leaves PAYE unchanged. */
  lemma LoanComesOffNetPay(f: Form, loan: real, more: real)
    requires f.grossSalary.Some? && 0.0 <= loan && 0.0 <= more
    ensures CalculateSalary(f.(loan := Some(loan + more))).netPay
         == CalculateSalary(f.(loan := Some(loan))).netPay - more
    ensures CalculateSalary(f.(loan := Some(loan + more))).paye
         == CalculateSalary(f.(loan := Some(loan))).paye
  {
  }

  /**
    A higher gross salary never lowers net pay: of every extra unit of
    taxable income, PAYE takes at most 40% and the employee's NSSF share at
    most 10%, so at least half of it is kept.
   */
  lemma RaiseNeverLowersNetPay(f: Form, g: real, raise: real)
    requires 0.0 <= raise
    ensures var before := CalculateSalary(f.(grossSalary := Some(g)));
            var after := CalculateSalary(f.(grossSalary := Some(g + raise)));
            after.netPay - before.netPay >= 0.5 * (after.taxableIncome - before.taxableIncome) >= 0.0
  {
    var before := CalculateSalary(f.(grossSalary := Some(g)));
    var after := CalculateSalary(f.(grossSalary := Some(g + raise)));
    assert before.taxableIncome <= after.taxableIncome;
    Paye.TaxMatchesClosedForm(before.taxableIncome);
    Paye.TaxMatchesClosedForm(after.taxableIncome);
    Paye.TaxMonotoneContinuous(before.taxableIncome, after.taxableIncome);
    Nssf.EmployeeShareContinuous(Nssf.TierOf(f.nssfTier), before.taxableIncome, after.taxableIncome);
  }

  /** The worked example: 1,000,000 a month, no allowances or deductions, Tier I, nets 789,000. */
  lemma WorkedExample(name: string, id: string, department: string)
    requires |name| > 0 && |id| > 0 && |department| > 0
    ensures ValidateAndCalculate(Form(name, id, department, Some(1000000.0), "monthly", "tier1",
                                      None, None, None, None, None, None))
         == Computed(PayResult(1000000.0, 0.0, 1000000.0, 202000.0, 9000.0, 18000.0, 0.0, 211000.0, 789000.0))
  {
    Paye.TaxOfOneMillion();
  }

  /** An annual 12,000,000 is taken as a monthly 1,000,000 before anything else. */
  lemma AnnualExample()
    ensures CalculateSalary(Form("A", "1", "D", Some(12000000.0), "annual", "tier1",
                                None, None, None, None, None, None)).grossSalary == 1000000.0
  {
  }

  /** Net pay is not clamped: a large loan drives it below zero. */
  lemma NetPayCanBeNegative()
    ensures CalculateSalary(Form("A", "1", "D", Some(200000.0), "monthly", "tier1",
                                 None, None, None, None, Some(500000.0), None)).netPay < 0.0
  {
    Paye.TaxZeroUpToFirstLimit(200000.0);
  }
}
