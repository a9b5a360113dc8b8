/** The net-margin calculator (`calculate_net_margin` in finance_core/utils.py):
    revenue minus cost of goods, taxes, platform commission and logistics, in exact
    decimal arithmetic. */
module Margin {
  import opened Common
  import opened Models

  const PIS_COFINS_RATE: real := 0.0925
  const ICMS_STANDARD_RATE: real := 0.18
  const ML_COMMISSION_RATE: real := 0.16
  const SHOPEE_COMMISSION_RATE: real := 0.14
  /** Cost of goods and tax credits are fixed at zero in the calculator. */
  const COGS: real := 0.0
  const CREDITS: real := 0.0

  /** Taxes on `revenue` for a tenant whose tax profile is `profile` (None: no profile). */
  function Taxes(revenue: real, profile: Option<TaxProfile>): real {
    match profile
    case None => 0.0
    case Some(tp) =>
      if tp.icmsBenefitFlag then
        revenue * (tp.effectiveTaxRate / 100.0) + revenue * PIS_COFINS_RATE
      else
        var liability := revenue * (ICMS_STANDARD_RATE + PIS_COFINS_RATE) - CREDITS;
        if liability < 0.0 then 0.0 else liability
  }

  /** Platform commission rate; every label other than SHOPEE pays the ML default. */
  function CommissionRate(platform: string): real {
    if platform == SHOPEE then SHOPEE_COMMISSION_RATE else ML_COMMISSION_RATE
  }

  function Commission(t: SaleTransaction): real {
    t.amount * CommissionRate(t.platform)
  }

  /** Logistics cost: the fixed rule cost alone when the flag says it governs, otherwise
      the platform-reported cost plus the fixed cost. */
  function Logistics(t: SaleTransaction): real {
    if t.isFixedCostApplied then t.calculatedFixedCost
    else t.shippingCostPlatform + t.calculatedFixedCost
  }

  function NetMargin(t: SaleTransaction, profile: Option<TaxProfile>): real {
    t.amount - COGS - Taxes(t.amount, profile) - Commission(t) - Logistics(t)
  }

  /** The transaction as `calculate_net_margin` leaves it: the margin stored on it. */
  function WithNetMargin(t: SaleTransaction, profile: Option<TaxProfile>): (r: SaleTransaction)
    ensures r.netMargin == Some(NetMargin(t, profile))
    ensures r.(netMargin := t.netMargin) == t
  {
    t.(netMargin := Some(NetMargin(t, profile)))
  }

  /** The three tax branches: no profile, fiscal benefit, standard rate clamped at zero. */
  lemma TaxBranches(revenue: real, profile: Option<TaxProfile>)
    ensures profile.None? ==> Taxes(revenue, profile) == 0.0
    ensures profile.Some? && profile.value.icmsBenefitFlag ==>
      Taxes(revenue, profile) == revenue * profile.value.effectiveTaxRate / 100.0 + revenue * 0.0925
    ensures profile.Some? && !profile.value.icmsBenefitFlag ==>
      Taxes(revenue, profile) == (if revenue < 0.0 then 0.0 else revenue * 0.2725)
  {
  }

  /** Taxes are never negative on a non-negative revenue with a non-negative benefit rate;
      the standard branch is never negative at all. */
  lemma TaxesNonNegative(revenue: real, profile: Option<TaxProfile>)
    requires revenue >= 0.0
    requires profile.Some? ==> profile.value.effectiveTaxRate >= 0.0
    ensures Taxes(revenue, profile) >= 0.0
  {
  }

  /** With a benefit rate no higher than the standard ICMS rate (18), the benefit branch
      never taxes more than the standard branch. */
  lemma BenefitNeverExceedsStandard(revenue: real, tp: TaxProfile)
    requires revenue >= 0.0 && tp.icmsBenefitFlag && tp.effectiveTaxRate <= 18.0
    ensures Taxes(revenue, Some(tp)) <= Taxes(revenue, Some(tp.(icmsBenefitFlag := false)))
  {
    assert revenue * (tp.effectiveTaxRate / 100.0) <= revenue * 0.18;
  }

  lemma CommissionRateChoice(platform: string)
    ensures CommissionRate(platform) == 0.14 <==> platform == SHOPEE
    ensures platform != SHOPEE ==> CommissionRate(platform) == 0.16
    ensures CommissionRate(ML) == 0.16
  {
  }

  lemma LogisticsAuthority(t: SaleTransaction)
    ensures t.isFixedCostApplied ==> Logistics(t) == t.calculatedFixedCost
    ensures !t.isFixedCostApplied ==> Logistics(t) == t.shippingCostPlatform + t.calculatedFixedCost
  {
  }

  /** Closed form of the margin: a fixed fraction of the revenue, minus logistics. */
  lemma NetMarginClosedForm(t: SaleTransaction, profile: Option<TaxProfile>)
    requires t.amount >= 0.0
    ensures profile.None? ==>
      NetMargin(t, profile) == t.amount * (1.0 - CommissionRate(t.platform)) - Logistics(t)
    ensures profile.Some? && profile.value.icmsBenefitFlag ==>
      NetMargin(t, profile) ==
        t.amount * (1.0 - profile.value.effectiveTaxRate / 100.0 - 0.0925 - CommissionRate(t.platform)) - Logistics(t)
    ensures profile.Some? && !profile.value.icmsBenefitFlag ==>
      NetMargin(t, profile) == t.amount * (0.7275 - CommissionRate(t.platform)) - Logistics(t)
  {
  }

  /** The margin does not read the stored margin, so recomputing is idempotent. */
  lemma RecomputeIdempotent(t: SaleTransaction, profile: Option<TaxProfile>)
    ensures NetMargin(WithNetMargin(t, profile), profile) == NetMargin(t, profile)
    ensures WithNetMargin(WithNetMargin(t, profile), profile) == WithNetMargin(t, profile)
  {
  }

  /** Benefit rate 1.00, amount 1000.00 on ML, no fixed rule, platform shipping 20.00:
      taxes 102.50, commission 160.00, logistics 20.00, margin 717.50. */
  lemma BenefitScenario(t: SaleTransaction, tp: TaxProfile)
    requires t.amount == 1000.0 && t.platform == ML
    requires !t.isFixedCostApplied && t.shippingCostPlatform == 20.0 && t.calculatedFixedCost == 0.0
    requires tp.icmsBenefitFlag && tp.effectiveTaxRate == 1.0
    ensures Taxes(t.amount, Some(tp)) == 102.5
    ensures Commission(t) == 160.0
    ensures Logistics(t) == 20.0
    ensures NetMargin(t, Some(tp)) == 717.5
  {
  }
}
