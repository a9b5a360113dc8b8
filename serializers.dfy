/** The write path of finance_core/serializers.py: the product-cost credit check with the save
    that follows it, and the organization create that stamps the owner. */
module Serializers {
  import opened Common
  import opened Models

  const CREDITS_EXCEED_GROSS: string := "Total tax credits cannot exceed the gross cost."
  const FIELD_REQUIRED: string := "This field is required."
  const GROSS_BELOW_ZERO: string := "Ensure this value is greater than or equal to 0.00."

  /** The numeric fields of a product-cost request after field validation; a field the
      request left out is `None`. */
  datatype CostFields = CostFields(
    grossCost: Option<real>,
    creditIcms: Option<real>,
    creditPis: Option<real>,
    creditCofins: Option<real>)

  /** The outcome of `ProductCostSerializer.validate`; `Raised` is the type error of comparing
      the credits against a missing gross cost. */
  datatype Validation = Passed(data: CostFields) | Failed(message: string) | Raised

  /** The credit sum `validate` compares, each missing credit counting as zero. */
  function ProposedCredits(data: CostFields): real {
    data.creditIcms.GetOr(0.0) + data.creditPis.GetOr(0.0) + data.creditCofins.GetOr(0.0)
  }

  function Validate(data: CostFields): Validation {
    if data.grossCost.None? then Raised
    else if ProposedCredits(data) > data.grossCost.value then Failed(CREDITS_EXCEED_GROSS)
    else Passed(data)
  }

  /** The check accepts exactly when the credits it sees do not exceed the gross cost (equality
      passes), returns the data unchanged, and breaks only on a missing gross cost. */
  lemma ValidateCases(data: CostFields)
    ensures Validate(data).Raised? <==> data.grossCost.None?
    ensures data.grossCost.Some? ==>
      (Validate(data).Passed? <==> ProposedCredits(data) <= data.grossCost.value)
    ensures Validate(data).Passed? ==> Validate(data).data == data
    ensures Validate(data).Failed? ==> Validate(data).message == CREDITS_EXCEED_GROSS
  {
  }

  /** What the save of a request produces: the stored row, a 400 with its message, or a
      server error. */
  datatype CostOutcome = Saved(cost: ProductCost) | Rejected(message: string) | Crashed

  /** Field validation of `gross_cost`: required unless the request is partial, and at least
      zero when present. */
  function GrossFieldError(data: CostFields, partial: bool): Option<string> {
    if data.grossCost.None? then (if partial then None else Some(FIELD_REQUIRED))
    else if !GrossCostValid(data.grossCost.value) then Some(GROSS_BELOW_ZERO)
    else None
  }

  /** The message of the validator a model serializer derives from `unique_together`. */
  const NOT_UNIQUE: string := "The fields organization, sku must make a unique set."

  /** The checks of a POST before the save, in order: field validation, the uniqueness
      validator on (organization, sku), then `validate`. */
  function CreateChecks(costs: map<ProductCostKey, ProductCost>, org: OrgId, sku: string, data: CostFields): Validation {
    match GrossFieldError(data, false)
    case Some(m) => Failed(m)
    case None =>
      if ProductCostKey(org, sku) in costs then Failed(NOT_UNIQUE)
      else Validate(data)
  }

  /** The row a create builds from the checked data, each left-out credit taken as zero. */
  function NewCostRow(org: OrgId, sku: string, ncm: string, d: CostFields): ProductCost
    requires d.grossCost.Some?
  {
    ProductCost(org, sku, ncm, d.grossCost.value,
      d.creditIcms.GetOr(0.0), d.creditPis.GetOr(0.0), d.creditCofins.GetOr(0.0), 0.0)
  }

  /** A POST against the product-cost table with the credit defaults of the model being
      `Decimal('0.00')`: the checks, then `ProductCost.save` on the new row. */
  function CreateProductCost(costs: map<ProductCostKey, ProductCost>, org: OrgId, sku: string, ncm: string,
                             data: CostFields): CostOutcome {
    match CreateChecks(costs, org, sku, data)
    case Raised => Crashed
    case Failed(m) => Rejected(m)
    case Passed(d) => Saved(SaveProductCost(NewCostRow(org, sku, ncm, d)))
  }

  /** A Python number as far as mixing them matters: a `Decimal` or a `float`. */
  datatype PyNumber = Dec(value: real) | Float(value: real)

  /** `a + b` or `a - b` with value `v`: `Decimal` with `float` raises `TypeError` (None). */
  function Combine(a: PyNumber, b: PyNumber, v: real): Option<PyNumber> {
    if a.Dec? == b.Dec? then Some(if a.Dec? then Dec(v) else Float(v)) else None
  }

  /** `self.gross_cost - (self.credit_icms + self.credit_pis + self.credit_cofins)` with a
      `Decimal` gross cost, or None when the expression raises. */
  function NetCostAsWritten(gross: real, icms: PyNumber, pis: PyNumber, cofins: PyNumber): Option<real> {
    var s1 := Combine(icms, pis, icms.value + pis.value);
    if s1.None? then None
    else
      var s2 := Combine(s1.value, cofins, s1.value.value + cofins.value);
      if s2.None? then None
      else
        var n := Combine(Dec(gross), s2.value, gross - s2.value.value);
        if n.None? then None else Some(n.value.value)
  }

  /** The net-cost expression raises unless all three credits are `Decimal`, and otherwise is
      the gross cost less the credits. */
  lemma NetCostAsWrittenCases(gross: real, icms: PyNumber, pis: PyNumber, cofins: PyNumber)
    ensures NetCostAsWritten(gross, icms, pis, cofins).Some? <==> icms.Dec? && pis.Dec? && cofins.Dec?
    ensures NetCostAsWritten(gross, icms, pis, cofins).Some? ==>
      NetCostAsWritten(gross, icms, pis, cofins).value == gross - (icms.value + pis.value + cofins.value)
  {
  }

  /** A credit of the new row: the request's `Decimal`, or the model default `0.00`, a `float`,
      when the request left it out (a model serializer does not fill model defaults in). */
  function CreditAsGiven(c: Option<real>): PyNumber {
    if c.Some? then Dec(c.value) else Float(0.0)
  }

  /** A POST as written: the same checks, then `ProductCostSerializer.create` builds the row
      with the float defaults and `save` computes the net cost. */
  function CreateProductCostAsWritten(costs: map<ProductCostKey, ProductCost>, org: OrgId, sku: string, ncm: string,
                                      data: CostFields): CostOutcome {
    match CreateChecks(costs, org, sku, data)
    case Raised => Crashed
    case Failed(m) => Rejected(m)
    case Passed(d) =>
      if NetCostAsWritten(d.grossCost.value, CreditAsGiven(d.creditIcms), CreditAsGiven(d.creditPis),
                          CreditAsGiven(d.creditCofins)).None? then Crashed
      else Saved(SaveProductCost(NewCostRow(org, sku, ncm, d)))
  }

  /** As written, a create that passes every check but leaves out a credit breaks in the save;
      any other create gets the corrected reply. */
  lemma CreateAsWrittenCases(costs: map<ProductCostKey, ProductCost>, org: OrgId, sku: string, ncm: string,
                             data: CostFields)
    ensures var w := CreateProductCostAsWritten(costs, org, sku, ncm, data);
      var c := CreateProductCost(costs, org, sku, ncm, data);
      && (w.Crashed? <==> c.Saved? && (data.creditIcms.None? || data.creditPis.None? || data.creditCofins.None?))
      && (!w.Crashed? ==> w == c)
  {
    var d := CreateChecks(costs, org, sku, data);
    if d.Passed? {
      assert d.data == data;
      NetCostAsWrittenCases(data.grossCost.value, CreditAsGiven(data.creditIcms), CreditAsGiven(data.creditPis),
                            CreditAsGiven(data.creditCofins));
    }
  }

  /** A POST of a gross cost of 100.00 without credits breaks as written; the corrected create
      files it with net cost 100.00. */
  lemma OmittedCreditsCrash(org: OrgId, sku: string, ncm: string)
    ensures var data := CostFields(Some(100.0), None, None, None);
      && CreateProductCostAsWritten(map[], org, sku, ncm, data) == Crashed
      && CreateProductCost(map[], org, sku, ncm, data) == Saved(ProductCost(org, sku, ncm, 100.0, 0.0, 0.0, 0.0, 100.0))
  {
  }

  /** The table after a request: a saved row is written under its key. */
  function StoreCost(costs: map<ProductCostKey, ProductCost>, r: CostOutcome): map<ProductCostKey, ProductCost> {
    if r.Saved? then costs[ProductCostKeyOf(r.cost) := r.cost] else costs
  }

  /** Every created cost keeps its credits within its gross cost, so its net cost is never
      negative; a request is turned away exactly for a missing or negative gross cost, a
      taken (organization, SKU) pair or credits above the gross cost. */
  lemma CreatedCostNonNegative(costs: map<ProductCostKey, ProductCost>, org: OrgId, sku: string, ncm: string,
                               data: CostFields)
    ensures var r := CreateProductCost(costs, org, sku, ncm, data);
      && !r.Crashed?
      && (r.Saved? <==> data.grossCost.Some? && data.grossCost.value >= 0.0
                        && ProductCostKey(org, sku) !in costs && ProposedCredits(data) <= data.grossCost.value)
      && (r == Rejected(NOT_UNIQUE) <==> GrossFieldError(data, false).None? && ProductCostKey(org, sku) in costs)
      && (r.Saved? ==> r.cost.netCost >= 0.0 && r.cost.netCost + TotalCredits(r.cost) == r.cost.grossCost
                       && r.cost.organization == org && r.cost.sku == sku && r.cost.ncm == ncm
                       && TotalCredits(r.cost) == ProposedCredits(data))
  {
  }

  /** A create keeps the table one row per (organization, SKU): it adds exactly the new key,
      never overwrites a stored row, and a refused request leaves the table as it was. */
  lemma CreateKeepsCostsUnique(costs: map<ProductCostKey, ProductCost>, org: OrgId, sku: string, ncm: string,
                               data: CostFields)
    requires CostsValid(costs)
    ensures var r := CreateProductCost(costs, org, sku, ncm, data);
      var costs' := StoreCost(costs, r);
      && CostsValid(costs')
      && (r.Saved? ==> ProductCostKey(org, sku) !in costs && costs'.Keys == costs.Keys + {ProductCostKey(org, sku)}
                       && forall k :: k in costs ==> costs'[k] == costs[k])
      && (!r.Saved? ==> costs' == costs)
  {
  }

  /** The stored row with the fields the request carries written over it, as a model
      serializer's update does. */
  function Overlay(stored: ProductCost, data: CostFields): ProductCost {
    stored.(grossCost := data.grossCost.GetOr(stored.grossCost),
            creditIcms := data.creditIcms.GetOr(stored.creditIcms),
            creditPis := data.creditPis.GetOr(stored.creditPis),
            creditCofins := data.creditCofins.GetOr(stored.creditCofins))
  }

  /** A PUT or PATCH as written: the check sees only the request's fields, so a credit left
      out counts as zero although the stored one is kept on save. */
  function UpdateProductCostAsWritten(stored: ProductCost, data: CostFields, partial: bool): CostOutcome {
    match GrossFieldError(data, partial)
    case Some(m) => Rejected(m)
    case None =>
      match Validate(data)
      case Raised => Crashed
      case Failed(m) => Rejected(m)
      case Passed(d) => Saved(SaveProductCost(Overlay(stored, d)))
  }

  /** A PATCH of the gross cost alone turns a row with credits of 50 into a net cost of -40. */
  lemma PatchBypassesCreditCheck()
    ensures var stored := ProductCost(1, "SKU-1", "6109", 100.0, 50.0, 0.0, 0.0, 50.0);
      var patch := CostFields(Some(10.0), None, None, None);
      && UpdateProductCostAsWritten(stored, patch, true) == Saved(stored.(grossCost := 10.0, netCost := -40.0))
      && UpdateProductCostAsWritten(stored, patch, true).cost.netCost < 0.0
      && UpdateProductCostAsWritten(stored, CostFields(None, Some(1.0), None, None), true) == Crashed
      && UpdateProductCost(stored, patch, true) == Rejected(CREDITS_EXCEED_GROSS)
  {
  }

  /** The update with the check run on the row as it will be saved: the request's fields over
      the stored ones. */
  function UpdateProductCost(stored: ProductCost, data: CostFields, partial: bool): CostOutcome {
    match GrossFieldError(data, partial)
    case Some(m) => Rejected(m)
    case None =>
      var row := Overlay(stored, data);
      var merged := CostFields(Some(row.grossCost), Some(row.creditIcms), Some(row.creditPis), Some(row.creditCofins));
      match Validate(merged)
      case Raised => Crashed
      case Failed(m) => Rejected(m)
      case Passed(_) => Saved(SaveProductCost(row))
  }

  /** The corrected update never breaks, saves exactly the overlaid row when its credits fit
      within its gross cost, and so never stores a negative net cost. */
  lemma UpdatedCostNonNegative(stored: ProductCost, data: CostFields, partial: bool)
    ensures var r := UpdateProductCost(stored, data, partial);
      && !r.Crashed?
      && (GrossFieldError(data, partial).None? ==>
            (r.Saved? <==> TotalCredits(Overlay(stored, data)) <= Overlay(stored, data).grossCost))
      && (r.Saved? ==> r.cost == SaveProductCost(Overlay(stored, data)) && r.cost.netCost >= 0.0)
  {
  }

  /** The organization fields a request supplies; `owner` is read-only and ignored. */
  datatype OrganizationData = OrganizationData(name: string, cnpj: string, owner: Option<UserId>)

  /** `OrganizationSerializer.create`: the requesting user becomes the owner. */
  function CreateOrganization(data: OrganizationData, user: UserId): (o: Organization)
    ensures o.owner == user
    ensures o.name == data.name && o.cnpj == data.cnpj
  {
    Organization(data.name, data.cnpj, user)
  }

  /** No supplied owner changes who owns the new organization. */
  lemma SuppliedOwnerIgnored(data: OrganizationData, other: Option<UserId>, user: UserId)
    ensures CreateOrganization(data.(owner := other), user) == CreateOrganization(data, user)
  {
  }
}
