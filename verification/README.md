# Net pay calculator — a Dafny model of the payroll core

This project models the payroll computation of the net pay calculator in
`script.js`: the Ugandan PAYE income-tax band walk (`calculatePAYE`), the
two-tier NSSF contribution rules (`calculateNSSF`), the aggregation of
gross salary, allowances and deductions into net pay (`calculateSalary`),
the normalisation of optional amounts (`getValidatedNumber`) and the
acceptance rule that decides whether a calculation runs at all
(`validateAndCalculate`).

Money is exact `real` arithmetic. The form reaches the model already read
off the page: text fields trimmed, number fields parsed (`None` where
parsing gave `NaN`), and the salary-period select value and the checked tier radio value as raw
strings.

Modules:

- `Paye` (`paye.dfy`): bands whose limit is `Finite(l)` or `Unbounded`
  (the source's `Infinity`). `Walk` is the band walk with its early exit
  and `Tax` applies it to the five-band schedule. The method `WalkBands` is
  the source's loop, `break` included, and `CalculatePaye` runs it on the
  schedule. Two independent references sit
  beside the walk: `BandSum` adds up every band's slice with no early exit,
  and `ClosedForm` is the piecewise-linear formula.
- `Money` (`money.dfy`): `Min` and `Max`, the `Math.min` / `Math.max` the
  rules use.
- `Nssf` (`nssf.dfy`): the `Tier` enum, the string dispatch `TierOf`, and
  `CalculateNssf`.
- `Inputs` (`inputs.dfy`): the `Form`, `GetValidatedNumber`, `PeriodOf`,
  and the validation checks with their error list. The page writes each
  error message into its own element (script.js:49-67); the model returns
  the failing checks as one list instead. Keeping that list in check order
  is a property of this representation, not of the page: it makes each
  error appear at most once.
- `Payroll` (`payroll.dfy`): `CalculateSalary`, `ValidateAndCalculate`, and
  the properties of the whole calculation.

## Model

| member | source | states |
|---|---|---|
| Paye.Walk | script.js:89-100 | Definition of the band walk (no contract of its own). Its properties are in `WalkBands`, `WalkIsBandSum`, `WalkLipschitz`, `WalkBounds` and `WalkUpToBand`. |
| Paye.Tax | script.js:80-103 | Definition of the tax on the Uganda schedule (no contract of its own). Its properties are in `CalculatePaye`, `TaxMatchesClosedForm`, `TaxBounds` and `TaxMonotoneContinuous`. |
| Paye.CalculatePaye | script.js:80-103 | The loop with early exit returns the band-walk tax. That tax equals the five-piece closed form (0 / 10% / 20% / 30% / 40% above 235,000 / 335,000 / 410,000 / 10,000,000) and is never negative. |
| Paye.WalkBands | script.js:89-100 | For any band table, the loop with `break` returns exactly the band walk `Walk`. |
| Paye.TaxMatchesClosedForm | script.js:81-100 | For every income, the band walk over the schedule equals the piecewise-linear closed form. |
| Paye.WalkIsBandSum | script.js:89-100 | On any ascending band list, the walk with early exit equals the sum of `rate × (min(income, limit) − previous limit)` over every band whose lower edge is below the income. The bands it skips contribute nothing. |
| Paye.TaxIsBandSum | script.js:81-100 | The schedule's tax is that sum of band slices. |
| Paye.WalkLipschitz | script.js:89-100 | On any ascending band list with rates in [0, m], raising the income by d raises the walk's tax by between 0 and m × d. So the tax is monotone and has no jump at a limit. |
| Paye.WalkBounds | script.js:89-102 | The walk's tax is non-negative. When the income is at least the lower edge, it is at most m × (income − lower edge). |
| Paye.WalkUpToBand | script.js:93-98 | An income at or below band i's limit gets the same tax from the whole list as from bands 0..i. The walk stops before the next band's rate applies. |
| Paye.TaxBandsAscending | script.js:81-87 | The schedule's limits strictly increase from 0, only the last band is unbounded, and every rate lies in [0, 0.4]. The rates never decrease from one band to the next (0, 0.1, 0.2, 0.3, 0.4), so the schedule is progressive. |
| Paye.TaxZeroUpToFirstLimit | script.js:82-100 | Every income up to 235,000, zero and negatives included, is taxed 0. |
| Paye.TaxBounds | script.js:81-102 | Tax is never negative. On a non-negative income it is at most 40% of that income. |
| Paye.TaxMonotoneContinuous | script.js:92-100 | For x ≤ y, 0 ≤ Tax(y) − Tax(x) ≤ 0.4 × (y − x). |
| Paye.TaxStopsAtBandLimit | script.js:93-98 | An income of exactly one of the four finite limits is taxed by that band and the bands below it only. |
| Paye.TaxIsPiecewiseLinear | script.js:81-95 | Inside band i the tax grows at exactly band i's rate. |
| Paye.TaxOfOneMillion | script.js:81-100 | An income of 1,000,000 is taxed 202,000. |
| Paye.TaxAtLimits | script.js:81-100 | The tax at 0, 235,000, 335,000, 410,000 and 10,000,000 is 0, 0, 10,000, 25,000 and 2,902,000. |
| Nssf.TierOf | script.js:112 | Only the exact value "tier1" selects Tier I. Every other value selects Tier II. |
| Nssf.CalculateNssf | script.js:109-134 | The employee pays 5% of min(income, 180,000). In Tier II only, the employee also pays 10% of any excess over 180,000. The employer pays 10% of the capped income in Tier I and 10% of the whole income in Tier II. |
| Nssf.Tier1Capped | script.js:110-118 | In Tier I the employee pays at most 9,000 and the employer at most 18,000, which is always twice the employee's share. |
| Nssf.Tier2AboveLimit | script.js:121-126 | In Tier II, above 180,000, the employee pays 9,000 + 10% of the excess and the employer pays 10% of the income. |
| Nssf.Tier2AtLimit | script.js:121-131 | At exactly 180,000, Tier II takes the non-exceeding branch: 9,000 for the employee and 18,000 for the employer. |
| Nssf.TiersAgreeIffWithinLimit | script.js:112-131 | The two tiers give identical shares if and only if the income is at most 180,000. |
| Nssf.Tier2AtLeastTier1 | script.js:112-131 | Tier II never charges the employee or the employer less than Tier I. |
| Nssf.EmployeeShareContinuous | script.js:112-131 | In either tier, raising the income by d raises the employee share by between 0 and 10% of d. |
| Nssf.SharesBounded | script.js:112-131 | On a non-negative income, both shares are non-negative and at most 10% of the income. |
| Inputs.PeriodOf | script.js:147 | Only the exact value "annual" selects the annual period. Every other value is monthly. |
| Inputs.GetValidatedNumber | script.js:239-242 | An unparsable value gives the default. A parsed value is kept when non-negative and clamped to 0 when negative. |
| Inputs.ValidatedWithZeroDefaultIsNonNegative | script.js:152-160 | With the default 0 that every call passes, each allowance and deduction is non-negative. |
| Inputs.GetValidatedNumberIdempotent | script.js:239-242 | Normalising an already normalised amount gives the same amount. |
| Inputs.Acceptable | script.js:48-71 | Definition of the acceptance rule (no contract of its own). Its properties are in `Validate` and `ValidateAndCalculate`. |
| Inputs.Fails | script.js:48-69 | Definition of each check's failure condition (no contract of its own). Its properties are in `Collect` and `Validate`. |
| Inputs.ChecksComplete | script.js:48-69 | Every error has a check, and the checks run in a fixed order: name, ID, department, salary not a number, salary negative. |
| Inputs.Collect | script.js:48-69 | Running the checks in turn collects exactly the errors of the failing checks. |
| Inputs.CollectKeepsOrder | script.js:46-69 | The collected errors keep the order in which the checks run. |
| Inputs.Validate | script.js:37-71 | Each check runs, and its error appears if and only if its condition fails. Name, ID and department must be non-empty. The salary must parse, and if it parses it must not be negative; at most one salary error is reported. Errors keep the checks' order, and there are none exactly when the form is acceptable. |
| Payroll.MonthlyGross | script.js:146-149 | The monthly gross times 12 is the annual salary. A monthly salary is unchanged. |
| Payroll.CalculateSalary | script.js:140-172 | Total allowances are the sum of the normalised housing, transport, medical and other allowances. Other deductions are the normalised loan plus savings. Both are non-negative. Taxable income is monthly gross plus total allowances. PAYE is the closed form of the taxable income. The NSSF shares are those of the selected tier. Total deductions are PAYE + the employee share + loan + savings. Net pay is gross + allowances − total deductions, with no clamping. The employer share never enters net pay. |
| Payroll.ValidateAndCalculate | script.js:37-74 | A result is computed if and only if the form is acceptable; otherwise the non-empty error list is returned. A computed result has 0 ≤ gross ≤ taxable income and PAYE ≤ 40% of taxable income. PAYE plus the employee's NSSF share never take more than half of taxable income. |
| Payroll.AnnualIsTwelveMonths | script.js:146-149 | An annual salary of 12g gives exactly the result of a monthly salary of g, whatever non-"annual" value the monthly period carries. |
| Payroll.Tier2NetPay | script.js:167-172 | Net pay under Tier II is at most net pay under Tier I, and the two are equal if and only if taxable income is at most 180,000. |
| Payroll.LoanComesOffNetPay | script.js:159-172 | Adding `more` to a non-negative loan lowers net pay by exactly `more` and leaves PAYE unchanged. |
| Payroll.RaiseNeverLowersNetPay | script.js:163-172 | A higher gross salary never lowers net pay. At least half of every extra unit of taxable income is kept. |
| Payroll.WorkedExample | script.js:140-172 | 1,000,000 a month with no allowances or deductions in Tier I gives PAYE 202,000, employee NSSF 9,000, employer NSSF 18,000, total deductions 211,000 and net pay 789,000. |
| Payroll.AnnualExample | script.js:146-149 | An annual 12,000,000 becomes a monthly gross of 1,000,000. |
| Payroll.NetPayCanBeNegative | script.js:171-172 | A 500,000 loan on a 200,000 salary gives a negative net pay. |

## Left out

- Page wiring: reading DOM fields, event listeners, showing and clearing error messages, displaying results, scrolling and resetting the form (script.js:1-28, 195-237). The model returns the values and error list that these would show.
- Theme toggling and `localStorage` (script.js:9-14, 256-269): browser state with no effect on the calculation.
- PDF export through the jsPDF library (script.js:274-345): a foreign library that formats display strings.
- `formatCurrency` (script.js:244-251): it wraps `Intl.NumberFormat`, which is not part of this model.
- `parseFloat` and `trim`: their results are the model's inputs. A parse failure (`NaN`) is `None`; the strings come already trimmed.
- IEEE-754 doubles: money is exact `real`. The model has no rounding error, and it has no `Infinity` that `parseFloat` could return for a very large or literal "Infinity" input.
- `calculateSalary` reads the gross salary from the page a second time. The model passes in the value that validation parsed.
- Two comments in `script.js` disagree with its code, and the model follows the code. The comment at script.js:120 says the Tier II employer share is on the amount above 180,000, but script.js:125 charges 10% of the whole income. The comment at script.js:138 leaves allowances out of net pay, but script.js:172 adds them.
