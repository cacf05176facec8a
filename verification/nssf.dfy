/**
  NSSF (National Social Security Fund) contributions, in two tiers split at
  a monthly threshold of 180,000.  Tier I levies 5% on the employee and 10%
  on the employer, both on income capped at the threshold.  Tier II levies
  5% on the employee up to the threshold and 10% on the excess, and 10% on
  the employer over the whole income.
 */
module Nssf {
  import opened Money

  datatype Tier = Tier1 | Tier2

  datatype Contribution = Contribution(employee: real, employer: real)

  /** The Tier I ceiling, in UGX per month. */
  const Tier1Limit: real := 180000.0

  /**
    The tier selected by the form's radio value: only the exact value
    "tier1" selects Tier I; every other value falls through to Tier II.
   */
  function TierOf(value: string): (t: Tier)
    ensures t == Tier1 <==> value == "tier1"
    ensures t == Tier2 <==> value != "tier1"
  {
    if value == "tier1" then Tier1 else Tier2
  }

  /**
    `calculateNSSF`.  Whatever the branch taken, the employee pays 5% of the
    income up to the threshold, plus, in Tier II only, 10% of whatever lies
    above it; the employer pays 10% of the capped income in Tier I and of the
    whole income in Tier II.
   */
  function CalculateNssf(taxableIncome: real, tier: Tier): (c: Contribution)
    ensures c.employee == 0.05 * Min(taxableIncome, Tier1Limit)
                         + (if tier == Tier2 then 0.1 * Max(0.0, taxableIncome - Tier1Limit) else 0.0)
    ensures c.employer == 0.1 * (if tier == Tier1 then Min(taxableIncome, Tier1Limit) else taxableIncome)
  {
    match tier
    case Tier1 =>
      var tier1Amount := Min(taxableIncome, Tier1Limit);
      Contribution(tier1Amount * 0.05, tier1Amount * 0.1)
    case Tier2 =>
      if taxableIncome > Tier1Limit then
        var tier2Amount := taxableIncome - Tier1Limit;
        Contribution(Tier1Limit * 0.05 + tier2Amount * 0.1, taxableIncome * 0.1)
      else
        Contribution(taxableIncome * 0.05, taxableIncome * 0.1)
  }

  /** Tier I is capped: the employee never pays more than 9,000 and the employer never more than 18,000. */
  lemma Tier1Capped(taxableIncome: real)
    ensures CalculateNssf(taxableIncome, Tier1).employee <= 9000.0
    ensures CalculateNssf(taxableIncome, Tier1).employer <= 18000.0
    ensures CalculateNssf(taxableIncome, Tier1).employer == 2.0 * CalculateNssf(taxableIncome, Tier1).employee
  {
  }

  /** Above the threshold Tier II charges 9,000 plus 10% of the excess to the employee and 10% of everything to the employer. */
  lemma Tier2AboveLimit(taxableIncome: real)
    requires taxableIncome > Tier1Limit
    ensures CalculateNssf(taxableIncome, Tier2).employee == 9000.0 + 0.1 * (taxableIncome - Tier1Limit)
    ensures CalculateNssf(taxableIncome, Tier2).employer == 0.1 * taxableIncome
  {
  }

  /** The threshold itself does not "exceed" it: Tier II charges the employee exactly 9,000 there. */
  lemma Tier2AtLimit()
    ensures CalculateNssf(Tier1Limit, Tier2) == Contribution(9000.0, 18000.0)
  {
  }

  /** The two tiers give identical shares exactly when the income does not exceed the threshold. */
  lemma TiersAgreeIffWithinLimit(taxableIncome: real)
    ensures CalculateNssf(taxableIncome, Tier1) == CalculateNssf(taxableIncome, Tier2)
        <==> taxableIncome <= Tier1Limit
  {
    if taxableIncome > Tier1Limit {
      assert CalculateNssf(taxableIncome, Tier1).employer < CalculateNssf(taxableIncome, Tier2).employer;
    }
  }

  /** Tier II never charges either party less than Tier I. */
  lemma Tier2AtLeastTier1(taxableIncome: real)
    ensures CalculateNssf(taxableIncome, Tier1).employee <= CalculateNssf(taxableIncome, Tier2).employee
    ensures CalculateNssf(taxableIncome, Tier1).employer <= CalculateNssf(taxableIncome, Tier2).employer
  {
  }

  /**
    In either tier the employee share is non-decreasing and continuous in the
    income: raising the income by `d` raises it by between 0 and 10% of `d`,
    so there is no jump at the threshold.
   */
  lemma EmployeeShareContinuous(tier: Tier, x: real, y: real)
    requires x <= y
    ensures 0.0 <= CalculateNssf(y, tier).employee - CalculateNssf(x, tier).employee <= 0.1 * (y - x)
  {
  }

  /** On a non-negative income both shares are non-negative, and the employee never pays more than 10% of it. */
  lemma SharesBounded(tier: Tier, taxableIncome: real)
    requires 0.0 <= taxableIncome
    ensures 0.0 <= CalculateNssf(taxableIncome, tier).employee <= 0.1 * taxableIncome
    ensures 0.0 <= CalculateNssf(taxableIncome, tier).employer <= 0.1 * taxableIncome
  {
  }
}
