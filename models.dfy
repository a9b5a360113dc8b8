/** The record shapes of finance_core/models.py, their defaults, their uniqueness keys and
    the net-cost rule ProductCost applies on save. */
module Models {
  import opened Common

  type OrgId = int
  type UserId = int

  const ML: string := "ML"
  const SHOPEE: string := "SHOPEE"

  /** A tenant. `owner` is the user the organization belongs to. */
  datatype Organization = Organization(name: string, cnpj: string, owner: UserId)

  /** Fiscal configuration of a tenant (at most one per organization). */
  datatype TaxProfile = TaxProfile(
    organization: OrgId,
    regime: string,
    icmsBenefitFlag: bool,
    effectiveTaxRate: real)

  /** A tax profile created with only its organization given. */
  function NewTaxProfile(org: OrgId): (t: TaxProfile)
    ensures t.organization == org
    ensures t.regime == "LUCRO_REAL" && !t.icmsBenefitFlag && t.effectiveTaxRate == 0.0
  {
    TaxProfile(org, "LUCRO_REAL", false, 0.0)
  }

  /** Manually entered product cost with its input tax credits. */
  datatype ProductCost = ProductCost(
    organization: OrgId,
    sku: string,
    ncm: string,
    grossCost: real,
    creditIcms: real,
    creditPis: real,
    creditCofins: real,
    netCost: real)

  /** `unique_together = ('organization', 'sku')`. */
  datatype ProductCostKey = ProductCostKey(organization: OrgId, sku: string)

  function ProductCostKeyOf(c: ProductCost): ProductCostKey {
    ProductCostKey(c.organization, c.sku)
  }

  /** The product-cost table filed under its uniqueness key, so no two rows share an
      organization and a SKU. */
  predicate CostsValid(costs: map<ProductCostKey, ProductCost>) {
    forall k :: k in costs ==> ProductCostKeyOf(costs[k]) == k
  }

  function TotalCredits(c: ProductCost): real {
    c.creditIcms + c.creditPis + c.creditCofins
  }

  /** `ProductCost.save`: recomputes the net cost from the gross cost and the three credits
      before the row is written; no other field is touched. */
  function SaveProductCost(c: ProductCost): (r: ProductCost)
    ensures r.netCost + TotalCredits(r) == r.grossCost
    ensures r.(netCost := c.netCost) == c
  {
    c.(netCost := c.grossCost - TotalCredits(c))
  }

  /** The `gross_cost` field validator: the gross cost is at least zero. */
  predicate GrossCostValid(gross: real) {
    gross >= 0.0
  }

  /** A canonical sale, ingested from a marketplace. `id` is the row's primary key. */
  datatype SaleTransaction = SaleTransaction(
    id: nat,
    organization: OrgId,
    externalId: string,
    platform: string,
    amount: real,
    transactionDate: int,
    shippingMethod: Option<string>,
    shippingCostPlatform: real,
    calculatedFixedCost: real,
    isFixedCostApplied: bool,
    netMargin: Option<real>)

  /** `unique_together = ('organization', 'external_id', 'platform')`. */
  datatype SaleKey = SaleKey(organization: OrgId, externalId: string, platform: string)

  function SaleKeyOf(t: SaleTransaction): SaleKey {
    SaleKey(t.organization, t.externalId, t.platform)
  }

  /** A sale created with only its key, amount and date given. */
  function NewSaleTransaction(id: nat, key: SaleKey, amount: real, date: int): (t: SaleTransaction)
    ensures SaleKeyOf(t) == key && t.id == id && t.amount == amount && t.transactionDate == date
    ensures t.shippingMethod.None? && t.shippingCostPlatform == 0.0 && t.calculatedFixedCost == 0.0
    ensures !t.isFixedCostApplied && t.netMargin.None?
  {
    SaleTransaction(id, key.organization, key.externalId, key.platform, amount, date,
                    None, 0.0, 0.0, false, None)
  }

  /** A fixed logistics cost rule for one shipping method of one platform. */
  datatype LogisticsCost = LogisticsCost(
    organization: OrgId,
    platform: string,
    shippingMethod: string,
    fixedCostValue: real)

  /** `unique_together = ('organization', 'platform', 'shipping_method')`. */
  datatype LogisticsKey = LogisticsKey(organization: OrgId, platform: string, shippingMethod: string)

  function LogisticsKeyOf(r: LogisticsCost): LogisticsKey {
    LogisticsKey(r.organization, r.platform, r.shippingMethod)
  }

  function NewLogisticsCost(key: LogisticsKey): (r: LogisticsCost)
    ensures LogisticsKeyOf(r) == key && r.fixedCostValue == 0.0
  {
    LogisticsCost(key.organization, key.platform, key.shippingMethod, 0.0)
  }

  /** Marketplace credentials of a tenant (at most one per organization). Expiry dates are
      seconds since the epoch. */
  datatype IntegrationProfile = IntegrationProfile(
    organization: OrgId,
    mlClientId: string,
    mlClientSecret: string,
    mlAccessToken: Option<string>,
    mlRefreshToken: Option<string>,
    mlTokenExpiry: Option<int>,
    shopeePartnerId: Option<string>,
    shopeePartnerKey: Option<string>,
    shopeeAccessToken: Option<string>,
    shopeeRefreshToken: Option<string>,
    shopeeShopId: Option<string>)

  function NewIntegrationProfile(org: OrgId, clientId: string, clientSecret: string): (p: IntegrationProfile)
    ensures p.organization == org && p.mlClientId == clientId && p.mlClientSecret == clientSecret
    ensures p.mlAccessToken.None? && p.mlRefreshToken.None? && p.mlTokenExpiry.None?
    ensures p.shopeePartnerId.None? && p.shopeePartnerKey.None?
    ensures p.shopeeAccessToken.None? && p.shopeeRefreshToken.None? && p.shopeeShopId.None?
  {
    IntegrationProfile(org, clientId, clientSecret, None, None, None, None, None, None, None, None)
  }

  /** One failed integration operation. `timestamp` is set when the entry is created. */
  datatype IntegrationErrorLog = IntegrationErrorLog(
    organization: OrgId,
    platform: string,
    taskName: string,
    errorMessage: string,
    timestamp: int)
}
