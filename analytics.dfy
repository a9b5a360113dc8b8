/** The read-only reports of finance_core/analytics_views.py: the profitability analytics
    (filters, KPIs and the daily chart) and the tax-regime simulation. */
module Analytics {
  import opened Common
  import opened Models
  import Margin

  /* ---------------------------------------------------------------- tax simulation */

  const SIMPLES_RATE: real := 0.06
  const PADRAO_RATE: real := 0.2725
  const EFETIVA_1_RATE: real := 0.1025

  /** The flat rate of a simulated regime label; an unknown label is taxed at zero. */
  function RegimeRate(regime: string): (r: real)
    ensures 0.0 <= r <= PADRAO_RATE
    ensures r == 0.0 <==> regime != "SIMPLES" && regime != "PADRAO" && regime != "EFETIVA_1"
  {
    if regime == "SIMPLES" then SIMPLES_RATE
    else if regime == "PADRAO" then PADRAO_RATE
    else if regime == "EFETIVA_1" then EFETIVA_1_RATE
    else 0.0
  }

  /** The standard simulated regime is the calculator's standard rate: ICMS plus PIS/COFINS. */
  lemma PadraoIsCalculatorStandard()
    ensures RegimeRate("PADRAO") == Margin.ICMS_STANDARD_RATE + Margin.PIS_COFINS_RATE
  {
  }

  /** The tax the stored margin is taken to include, re-derived with the calculator's
      branches but without its clamp at zero and without credits. */
  function OriginalTaxes(revenue: real, profile: Option<TaxProfile>): real {
    match profile
    case None => 0.0
    case Some(tp) =>
      if tp.icmsBenefitFlag then
        revenue * (tp.effectiveTaxRate / 100.0) + revenue * Margin.PIS_COFINS_RATE
      else
        revenue * (Margin.ICMS_STANDARD_RATE + Margin.PIS_COFINS_RATE)
  }

  /** The re-derived tax is the calculator's exactly when the calculator's clamp does not
      bite: it differs only for a standard-regime tenant on a negative revenue. */
  lemma OriginalTaxesMatchCalculator(revenue: real, profile: Option<TaxProfile>)
    ensures OriginalTaxes(revenue, profile) == Margin.Taxes(revenue, profile)
        <==> !(profile.Some? && !profile.value.icmsBenefitFlag && revenue < 0.0)
  {
  }

  /** One row of the simulation response. */
  datatype SimulationRow = SimulationRow(
    transactionId: nat,
    externalId: string,
    revenue: real,
    currentMargin: real,
    simulatedMargin: real,
    diff: real,
    simulatedRegime: string)

  /** The projection of one transaction onto `regime`: the stored margin plus the original
      tax, minus the simulated tax. */
  function SimulateRow(t: SaleTransaction, profile: Option<TaxProfile>, regime: string): (row: SimulationRow)
    requires t.netMargin.Some?
    ensures row.transactionId == t.id && row.externalId == t.externalId && row.revenue == t.amount
    ensures row.currentMargin == t.netMargin.value && row.simulatedRegime == regime
    ensures row.simulatedMargin == t.netMargin.value + OriginalTaxes(t.amount, profile) - t.amount * RegimeRate(regime)
    ensures row.diff == row.simulatedMargin - row.currentMargin
    ensures row.diff == OriginalTaxes(t.amount, profile) - t.amount * RegimeRate(regime)
  {
    var simulatedTax := t.amount * RegimeRate(regime);
    var profitPreTax := t.netMargin.value + OriginalTaxes(t.amount, profile);
    var simulated := profitPreTax - simulatedTax;
    SimulationRow(t.id, t.externalId, t.amount, t.netMargin.value, simulated, simulated - t.netMargin.value, regime)
  }

  /** On a margin the calculator stored, the simulated margin is the calculator's margin with
      the simulated tax in place of the tenant's own (whenever the calculator's clamp does not
      bite). */
  lemma SimulationReplacesTax(t: SaleTransaction, profile: Option<TaxProfile>, regime: string)
    requires t.netMargin == Some(Margin.NetMargin(t, profile))
    requires !(profile.Some? && !profile.value.icmsBenefitFlag && t.amount < 0.0)
    ensures SimulateRow(t, profile, regime).simulatedMargin
         == t.amount - Margin.COGS - t.amount * RegimeRate(regime) - Margin.Commission(t) - Margin.Logistics(t)
  {
    OriginalTaxesMatchCalculator(t.amount, profile);
  }

  /** A standard-regime tenant projected onto PADRAO keeps its margin. */
  lemma PadraoLeavesStandardTenant(t: SaleTransaction, tp: TaxProfile)
    requires t.netMargin.Some? && !tp.icmsBenefitFlag
    ensures SimulateRow(t, Some(tp), "PADRAO").diff == 0.0
    ensures SimulateRow(t, Some(tp), "PADRAO").simulatedMargin == t.netMargin.value
  {
  }

  /** A sale of 1000.00 by a tenant with the fiscal benefit at 1%, stored margin 717.50,
      projected onto PADRAO: profit before tax 820.00, simulated tax 272.50, simulated margin
      547.50. */
  lemma SimulationScenario(t: SaleTransaction, tp: TaxProfile)
    requires t.amount == 1000.0 && t.netMargin == Some(717.5)
    requires tp.icmsBenefitFlag && tp.effectiveTaxRate == 1.0
    ensures OriginalTaxes(t.amount, Some(tp)) == 102.5
    ensures SimulateRow(t, Some(tp), "PADRAO").simulatedMargin == 547.5
    ensures SimulateRow(t, Some(tp), "PADRAO").diff == -170.0
  {
  }

  /** `filter(id__in=transaction_ids)` over the table, in table order. */
  function Matched(sales: seq<SaleTransaction>, ids: seq<nat>): (m: seq<SaleTransaction>)
    ensures forall t :: t in m <==> t in sales && t.id in ids
    ensures |m| <= |sales|
  {
    if sales == [] then []
    else
      var last := sales[|sales| - 1];
      Matched(sales[..|sales| - 1], ids) + (if last.id in ids then [last] else [])
  }

  /** Every transaction the simulation reads has a stored margin (adding to a null margin
      raises in the source). */
  predicate Simulable(sales: seq<SaleTransaction>, ids: seq<nat>) {
    forall t :: t in sales && t.id in ids ==> t.netMargin.Some?
  }

  function ProfileOf(taxProfiles: map<OrgId, TaxProfile>, org: OrgId): Option<TaxProfile> {
    if org in taxProfiles then Some(taxProfiles[org]) else None
  }

  function SimulateRows(ts: seq<SaleTransaction>, taxProfiles: map<OrgId, TaxProfile>, regime: string): seq<SimulationRow>
    requires forall t :: t in ts ==> t.netMargin.Some?
  {
    seq(|ts|, k requires 0 <= k < |ts| => SimulateRow(ts[k], ProfileOf(taxProfiles, ts[k].organization), regime))
  }

  lemma MatchedStep(sales: seq<SaleTransaction>, ids: seq<nat>, i: nat)
    requires i < |sales|
    ensures Matched(sales[..i + 1], ids) == Matched(sales[..i], ids) + (if sales[i].id in ids then [sales[i]] else [])
  {
    assert sales[..i + 1][..i] == sales[..i];
  }

  /** A listed sale without a margin makes the table unsimulable. */
  lemma UnsimulableAt(sales: seq<SaleTransaction>, ids: seq<nat>, i: nat)
    requires i < |sales|
    ensures sales[i].id in ids && sales[i].netMargin.None? ==> !Simulable(sales, ids)
  {
    assert sales[i] in sales;
  }

  lemma SimulateRowsAppend(ts: seq<SaleTransaction>, t: SaleTransaction, taxProfiles: map<OrgId, TaxProfile>, regime: string)
    requires forall u :: u in ts ==> u.netMargin.Some?
    requires t.netMargin.Some?
    ensures SimulateRows(ts + [t], taxProfiles, regime)
         == SimulateRows(ts, taxProfiles, regime) + [SimulateRow(t, ProfileOf(taxProfiles, t.organization), regime)]
  {
  }

  /** The simulation response: 400 without ids or regime, the server error of a matched
      transaction without a stored margin (adding to a null margin raises `TypeError`), or
      one row per matched transaction. */
  datatype SimulationResponse = MissingParams | Raised | Results(rows: seq<SimulationRow>)

  /** `TaxSimulationView.post`: a missing `transaction_ids` is read as the empty list. The
      method changes nothing: the simulation is a projection only. */
  method SimulateTaxes(sales: seq<SaleTransaction>, taxProfiles: map<OrgId, TaxProfile>,
                       ids: seq<nat>, regime: Option<string>) returns (r: SimulationResponse)
    ensures r.MissingParams? <==> ids == [] || !Truthy(regime)
    ensures r.Raised? <==> ids != [] && Truthy(regime) && !Simulable(sales, ids)
    ensures r.Results? ==>
      Truthy(regime) && Simulable(sales, ids) && r.rows == SimulateRows(Matched(sales, ids), taxProfiles, regime.value)
  {
    if ids == [] || !Truthy(regime) {
      return MissingParams;
    }
    var rows: seq<SimulationRow> := [];
    var i := 0;
    while i < |sales|
      invariant 0 <= i <= |sales|
      invariant forall u :: u in Matched(sales[..i], ids) ==> u.netMargin.Some?
      invariant rows == SimulateRows(Matched(sales[..i], ids), taxProfiles, regime.value)
    {
      var raised;
      rows, raised := SimulateOne(sales, taxProfiles, ids, regime.value, i, rows);
      if raised {
        return Raised;
      }
      i := i + 1;
    }
    assert sales[..|sales|] == sales;
    MatchedSimulableBack(sales, ids);
    return Results(rows);
  }

  /** One iteration of the simulation loop: the `i`-th stored sale adds its row when its id
      is listed, and raises when it is listed without a margin. */
  method SimulateOne(sales: seq<SaleTransaction>, taxProfiles: map<OrgId, TaxProfile>, ids: seq<nat>,
                     regime: string, i: nat, rows: seq<SimulationRow>) returns (rows': seq<SimulationRow>, raised: bool)
    requires i < |sales|
    requires forall u :: u in Matched(sales[..i], ids) ==> u.netMargin.Some?
    requires rows == SimulateRows(Matched(sales[..i], ids), taxProfiles, regime)
    ensures raised <==> sales[i].id in ids && sales[i].netMargin.None?
    ensures raised ==> !Simulable(sales, ids)
    ensures !raised ==> (forall u :: u in Matched(sales[..i + 1], ids) ==> u.netMargin.Some?)
                        && rows' == SimulateRows(Matched(sales[..i + 1], ids), taxProfiles, regime)
  {
    MatchedStep(sales, ids, i);
    var t := sales[i];
    rows', raised := rows, false;
    if t.id in ids {
      if t.netMargin.None? {
        UnsimulableAt(sales, ids, i);
        return rows, true;
      }
      SimulateRowsAppend(Matched(sales[..i], ids), t, taxProfiles, regime);
      rows' := rows + [SimulateRow(t, ProfileOf(taxProfiles, t.organization), regime)];
    }
  }

  /** One row per matched transaction, in table order: row `k` is the projection of the `k`-th
      matched transaction, a stored one whose id was asked for. */
  lemma SimulationCoversMatched(sales: seq<SaleTransaction>, taxProfiles: map<OrgId, TaxProfile>,
                                ids: seq<nat>, regime: string, k: nat)
    requires Simulable(sales, ids)
    requires k < |Matched(sales, ids)|
    ensures |SimulateRows(Matched(sales, ids), taxProfiles, regime)| == |Matched(sales, ids)|
    ensures var row := SimulateRows(Matched(sales, ids), taxProfiles, regime)[k];
      var t := Matched(sales, ids)[k];
      && t in sales && row.transactionId == t.id && t.id in ids && row.simulatedRegime == regime
      && row.revenue == t.amount && row.currentMargin == t.netMargin.value
      && row.simulatedMargin
         == t.netMargin.value + OriginalTaxes(t.amount, ProfileOf(taxProfiles, t.organization)) - t.amount * RegimeRate(regime)
      && row.diff == row.simulatedMargin - row.currentMargin
      && row.diff == OriginalTaxes(t.amount, ProfileOf(taxProfiles, t.organization)) - t.amount * RegimeRate(regime)
  {
    MatchedSimulable(sales, ids);
    MatchedEntry(sales, ids, k);
    SimulateRowsEntry(Matched(sales, ids), taxProfiles, regime, k);
  }

  lemma MatchedSimulable(sales: seq<SaleTransaction>, ids: seq<nat>)
    requires Simulable(sales, ids)
    ensures forall t :: t in Matched(sales, ids) ==> t.netMargin.Some?
  {
  }

  lemma MatchedSimulableBack(sales: seq<SaleTransaction>, ids: seq<nat>)
    requires forall t :: t in Matched(sales, ids) ==> t.netMargin.Some?
    ensures Simulable(sales, ids)
  {
  }

  lemma MatchedEntry(sales: seq<SaleTransaction>, ids: seq<nat>, k: nat)
    requires k < |Matched(sales, ids)|
    ensures Matched(sales, ids)[k] in sales && Matched(sales, ids)[k].id in ids
  {
    assert Matched(sales, ids)[k] in Matched(sales, ids);
  }

  lemma SimulateRowsEntry(ts: seq<SaleTransaction>, taxProfiles: map<OrgId, TaxProfile>, regime: string, k: nat)
    requires forall t :: t in ts ==> t.netMargin.Some?
    requires k < |ts|
    ensures var row := SimulateRows(ts, taxProfiles, regime)[k];
      && row.transactionId == ts[k].id && row.revenue == ts[k].amount && row.simulatedRegime == regime
      && row.currentMargin == ts[k].netMargin.value
      && row.simulatedMargin
         == ts[k].netMargin.value + OriginalTaxes(ts[k].amount, ProfileOf(taxProfiles, ts[k].organization)) - ts[k].amount * RegimeRate(regime)
      && row.diff == row.simulatedMargin - row.currentMargin
      && row.diff == OriginalTaxes(ts[k].amount, ProfileOf(taxProfiles, ts[k].organization)) - ts[k].amount * RegimeRate(regime)
  {
    assert ts[k] in ts;
  }

  /* ---------------------------------------------------------------- analytics */

  const SECONDS_PER_DAY: int := 86400

  /** `TruncDate` of a transaction instant (seconds, UTC). */
  function DayOf(instant: int): int {
    instant / SECONDS_PER_DAY
  }

  /** The query parameters; None stands for an absent or empty parameter. */
  datatype AnalyticsQuery = AnalyticsQuery(
    startDate: Option<int>,
    endDate: Option<int>,
    platform: Option<string>,
    organizationId: Option<OrgId>)

  predicate FiltersPlatform(q: AnalyticsQuery) {
    Truthy(q.platform) && q.platform.value != "ALL"
  }

  predicate Matches(q: AnalyticsQuery, t: SaleTransaction) {
    && (q.organizationId.None? || t.organization == q.organizationId.value)
    && (q.startDate.None? || t.transactionDate >= q.startDate.value)
    && (q.endDate.None? || t.transactionDate <= q.endDate.value)
    && (!FiltersPlatform(q) || t.platform == q.platform.value)
  }

  /** The filtered queryset, in table order. */
  function Filter(sales: seq<SaleTransaction>, q: AnalyticsQuery): (r: seq<SaleTransaction>)
    ensures forall t :: t in r <==> t in sales && Matches(q, t)
  {
    if sales == [] then []
    else (if Matches(q, sales[0]) then [sales[0]] else []) + Filter(sales[1..], q)
  }

  /** 'ALL' selects what no platform parameter selects; both date bounds are inclusive. */
  lemma FilterEdges(sales: seq<SaleTransaction>, q: AnalyticsQuery, t: SaleTransaction)
    ensures Filter(sales, q.(platform := Some("ALL"))) == Filter(sales, q.(platform := None))
    ensures t in sales && (q.organizationId.None? || t.organization == q.organizationId.value)
      && !FiltersPlatform(q) && q.startDate == Some(t.transactionDate) && q.endDate == Some(t.transactionDate)
      ==> t in Filter(sales, q)
  {
    AllIsNoPlatformFilter(sales, q);
  }

  lemma {:induction false} AllIsNoPlatformFilter(sales: seq<SaleTransaction>, q: AnalyticsQuery)
    ensures Filter(sales, q.(platform := Some("ALL"))) == Filter(sales, q.(platform := None))
    decreases |sales|
  {
    if sales != [] {
      AllIsNoPlatformFilter(sales[1..], q);
    }
  }

  /** SQL `SUM` over a nullable column: NULL when no row has a value. */
  function AddOpt(a: Option<real>, b: Option<real>): Option<real> {
    if a.None? then b else if b.None? then a else Some(a.value + b.value)
  }

  function SumAmount(ts: seq<SaleTransaction>): real {
    if ts == [] then 0.0 else ts[0].amount + SumAmount(ts[1..])
  }

  function SumMargin(ts: seq<SaleTransaction>): Option<real> {
    if ts == [] then None else AddOpt(ts[0].netMargin, SumMargin(ts[1..]))
  }

  datatype Kpis = Kpis(revenue: real, netMargin: real, totalCosts: real, marginPercentage: real)

  /** The KPIs of the filtered transactions: absent sums read as zero. */
  function KpisOf(ts: seq<SaleTransaction>): (k: Kpis)
    ensures k.revenue == SumAmount(ts) && k.netMargin == SumMargin(ts).GetOr(0.0)
    ensures k.totalCosts + k.netMargin == k.revenue
    ensures k.revenue > 0.0 ==> k.marginPercentage * k.revenue == k.netMargin * 100.0
    ensures k.revenue <= 0.0 ==> k.marginPercentage == 0.0
  {
    var revenue := SumAmount(ts);
    var net := SumMargin(ts).GetOr(0.0);
    Kpis(revenue, net, revenue - net, if revenue > 0.0 then net / revenue * 100.0 else 0.0)
  }

  /** No transaction with a stored margin above its amount: the margin sum stays at or
      below the revenue, and when the margins are also non-negative it stays at or above
      zero. */
  lemma {:induction false} SumMarginBounded(ts: seq<SaleTransaction>)
    requires forall k :: 0 <= k < |ts| ==> ts[k].amount >= 0.0
    requires forall k :: 0 <= k < |ts| && ts[k].netMargin.Some? ==> 0.0 <= ts[k].netMargin.value <= ts[k].amount
    ensures 0.0 <= SumMargin(ts).GetOr(0.0) <= SumAmount(ts)
    decreases |ts|
  {
    if ts != [] {
      assert forall k :: 0 <= k < |ts[1..]| ==> ts[1..][k] == ts[k + 1];
      SumMarginBounded(ts[1..]);
    }
  }

  /** With margins between zero and the amount, the margin percentage is between 0 and 100. */
  lemma MarginPercentageBounds(ts: seq<SaleTransaction>)
    requires forall k :: 0 <= k < |ts| ==> ts[k].amount >= 0.0
    requires forall k :: 0 <= k < |ts| && ts[k].netMargin.Some? ==> 0.0 <= ts[k].netMargin.value <= ts[k].amount
    ensures 0.0 <= KpisOf(ts).marginPercentage <= 100.0
  {
    SumMarginBounded(ts);
    var k := KpisOf(ts);
    if k.revenue > 0.0 {
      ShareBounds(k.netMargin, k.revenue);
    }
  }

  lemma ShareBounds(part: real, whole: real)
    requires 0.0 <= part <= whole && whole > 0.0
    ensures 0.0 <= part / whole * 100.0 <= 100.0
  {
  }

  /** One row of the daily chart: a (day, platform) group and its sums. */
  datatype DailyRow = DailyRow(day: int, platform: string, revenue: real, netMargin: Option<real>)

  function NewRow(t: SaleTransaction): DailyRow {
    DailyRow(DayOf(t.transactionDate), t.platform, t.amount, t.netMargin)
  }

  predicate InGroup(t: SaleTransaction, day: int, platform: string) {
    DayOf(t.transactionDate) == day && t.platform == platform
  }

  /** Adds one transaction to the grouped rows: into its group when present, otherwise as a
      new group after the groups of earlier days and of its own day. */
  function Insert(rows: seq<DailyRow>, t: SaleTransaction): seq<DailyRow>
    decreases |rows|
  {
    if rows == [] then [NewRow(t)]
    else if InGroup(t, rows[0].day, rows[0].platform) then
      [rows[0].(revenue := t.amount + rows[0].revenue, netMargin := AddOpt(t.netMargin, rows[0].netMargin))] + rows[1..]
    else if rows[0].day > DayOf(t.transactionDate) then [NewRow(t)] + rows
    else [rows[0]] + Insert(rows[1..], t)
  }

  /** The `values('date', 'platform').annotate(...).order_by('date')` rows; the database
      leaves the order within one day open, and the model fixes it. */
  function Daily(ts: seq<SaleTransaction>): seq<DailyRow> {
    if ts == [] then [] else Insert(Daily(ts[1..]), ts[0])
  }

  predicate SortedByDay(rows: seq<DailyRow>) {
    forall i, j :: 0 <= i < j < |rows| ==> rows[i].day <= rows[j].day
  }

  predicate DistinctGroups(rows: seq<DailyRow>) {
    forall i, j :: 0 <= i < j < |rows| ==> rows[i].day != rows[j].day || rows[i].platform != rows[j].platform
  }

  /** The first row of a group. */
  function Lookup(rows: seq<DailyRow>, day: int, platform: string): Option<DailyRow> {
    if rows == [] then None
    else if rows[0].day == day && rows[0].platform == platform then Some(rows[0])
    else Lookup(rows[1..], day, platform)
  }

  predicate HasGroup(ts: seq<SaleTransaction>, day: int, platform: string) {
    exists k :: 0 <= k < |ts| && InGroup(ts[k], day, platform)
  }

  function GroupRevenue(ts: seq<SaleTransaction>, day: int, platform: string): real {
    if ts == [] then 0.0
    else (if InGroup(ts[0], day, platform) then ts[0].amount else 0.0) + GroupRevenue(ts[1..], day, platform)
  }

  function GroupMargin(ts: seq<SaleTransaction>, day: int, platform: string): Option<real> {
    if ts == [] then None
    else AddOpt(if InGroup(ts[0], day, platform) then ts[0].netMargin else None, GroupMargin(ts[1..], day, platform))
  }

  predicate DaysFrom(rows: seq<DailyRow>, bound: int) {
    forall i :: 0 <= i < |rows| ==> bound <= rows[i].day
  }

  predicate Absent(rows: seq<DailyRow>, day: int, platform: string) {
    forall i :: 0 <= i < |rows| ==> rows[i].day != day || rows[i].platform != platform
  }

  lemma {:induction false} InsertKeepsBound(rows: seq<DailyRow>, t: SaleTransaction, bound: int)
    requires DaysFrom(rows, bound) && bound <= DayOf(t.transactionDate)
    ensures DaysFrom(Insert(rows, t), bound)
    decreases |rows|
  {
    if rows != [] && !InGroup(t, rows[0].day, rows[0].platform) && rows[0].day <= DayOf(t.transactionDate) {
      assert DaysFrom(rows[1..], bound) by {
        forall i | 0 <= i < |rows[1..]| ensures bound <= rows[1..][i].day {
          assert rows[1..][i] == rows[i + 1];
        }
      }
      InsertKeepsBound(rows[1..], t, bound);
      assert Insert(rows, t) == [rows[0]] + Insert(rows[1..], t);
    } else if rows != [] && InGroup(t, rows[0].day, rows[0].platform) {
      assert forall i :: 1 <= i < |rows| ==> Insert(rows, t)[i] == rows[i];
    } else if rows != [] {
      assert forall i :: 1 <= i < |Insert(rows, t)| ==> Insert(rows, t)[i] == rows[i - 1];
    }
  }

  lemma {:induction false} InsertKeepsAbsent(rows: seq<DailyRow>, t: SaleTransaction, day: int, platform: string)
    requires Absent(rows, day, platform) && !InGroup(t, day, platform)
    ensures Absent(Insert(rows, t), day, platform)
    decreases |rows|
  {
    if rows != [] && !InGroup(t, rows[0].day, rows[0].platform) && rows[0].day <= DayOf(t.transactionDate) {
      assert Absent(rows[1..], day, platform) by {
        forall i | 0 <= i < |rows[1..]| ensures rows[1..][i].day != day || rows[1..][i].platform != platform {
          assert rows[1..][i] == rows[i + 1];
        }
      }
      InsertKeepsAbsent(rows[1..], t, day, platform);
      assert Insert(rows, t) == [rows[0]] + Insert(rows[1..], t);
    } else if rows != [] && InGroup(t, rows[0].day, rows[0].platform) {
      assert forall i :: 1 <= i < |rows| ==> Insert(rows, t)[i] == rows[i];
    } else if rows != [] {
      assert forall i :: 1 <= i < |Insert(rows, t)| ==> Insert(rows, t)[i] == rows[i - 1];
    }
  }

  /** A head row that starts no earlier than the rest and shares no group with it keeps the
      rows sorted and distinct. */
  lemma ConsSorted(r: DailyRow, rows: seq<DailyRow>)
    requires SortedByDay(rows) && DistinctGroups(rows)
    requires DaysFrom(rows, r.day) && Absent(rows, r.day, r.platform)
    ensures SortedByDay([r] + rows) && DistinctGroups([r] + rows)
  {
    assert forall i :: 1 <= i < |[r] + rows| ==> ([r] + rows)[i] == rows[i - 1];
  }

  lemma TailFacts(rows: seq<DailyRow>)
    requires rows != [] && SortedByDay(rows) && DistinctGroups(rows)
    ensures SortedByDay(rows[1..]) && DistinctGroups(rows[1..])
    ensures DaysFrom(rows[1..], rows[0].day) && Absent(rows[1..], rows[0].day, rows[0].platform)
  {
    assert forall i :: 0 <= i < |rows[1..]| ==> rows[1..][i] == rows[i + 1];
  }

  lemma {:induction false} InsertSorted(rows: seq<DailyRow>, t: SaleTransaction)
    requires SortedByDay(rows) && DistinctGroups(rows)
    ensures SortedByDay(Insert(rows, t)) && DistinctGroups(Insert(rows, t))
    decreases |rows|
  {
    if rows == [] {
    } else if InGroup(t, rows[0].day, rows[0].platform) {
      TailFacts(rows);
      ConsSorted(rows[0].(revenue := t.amount + rows[0].revenue, netMargin := AddOpt(t.netMargin, rows[0].netMargin)), rows[1..]);
    } else if rows[0].day > DayOf(t.transactionDate) {
      assert DaysFrom(rows, DayOf(t.transactionDate)) && Absent(rows, DayOf(t.transactionDate), t.platform) by {
        assert forall i :: 0 <= i < |rows| ==> rows[0].day <= rows[i].day;
      }
      ConsSorted(NewRow(t), rows);
    } else {
      TailFacts(rows);
      InsertSorted(rows[1..], t);
      InsertKeepsBound(rows[1..], t, rows[0].day);
      InsertKeepsAbsent(rows[1..], t, rows[0].day, rows[0].platform);
      ConsSorted(rows[0], Insert(rows[1..], t));
    }
  }

  /** Inserting a transaction changes its own group only. */
  lemma {:induction false} InsertLookup(rows: seq<DailyRow>, t: SaleTransaction, day: int, platform: string)
    requires SortedByDay(rows)
    ensures Lookup(Insert(rows, t), day, platform) ==
      if !InGroup(t, day, platform) then Lookup(rows, day, platform)
      else if Lookup(rows, day, platform).None? then Some(NewRow(t))
      else Some(Lookup(rows, day, platform).value.(revenue := t.amount + Lookup(rows, day, platform).value.revenue,
                                                   netMargin := AddOpt(t.netMargin, Lookup(rows, day, platform).value.netMargin)))
    decreases |rows|
  {
    if rows == [] {
    } else if InGroup(t, rows[0].day, rows[0].platform) {
    } else if rows[0].day > DayOf(t.transactionDate) {
      if InGroup(t, day, platform) {
        NoLaterGroup(rows, day, platform);
      }
    } else {
      InsertLookup(rows[1..], t, day, platform);
    }
  }

  lemma {:induction false} NoLaterGroup(rows: seq<DailyRow>, day: int, platform: string)
    requires SortedByDay(rows) && rows != [] && rows[0].day > day
    ensures Lookup(rows, day, platform).None?
    decreases |rows|
  {
    if |rows| > 1 {
      NoLaterGroup(rows[1..], day, platform);
    }
  }

  lemma {:induction false} EmptyGroup(ts: seq<SaleTransaction>, day: int, platform: string)
    requires !HasGroup(ts, day, platform)
    ensures GroupRevenue(ts, day, platform) == 0.0 && GroupMargin(ts, day, platform).None?
    decreases |ts|
  {
    if ts != [] {
      forall k | 0 <= k < |ts[1..]|
        ensures !InGroup(ts[1..][k], day, platform)
      {
        assert ts[1..][k] == ts[k + 1];
      }
      EmptyGroup(ts[1..], day, platform);
    }
  }

  /** The group of every (day, platform) in the chart carries exactly that group's sums, and
      a group is charted only when some transaction falls into it. */
  lemma {:induction false} DailyLookup(ts: seq<SaleTransaction>, day: int, platform: string)
    ensures SortedByDay(Daily(ts)) && DistinctGroups(Daily(ts))
    ensures Lookup(Daily(ts), day, platform) ==
      if HasGroup(ts, day, platform)
      then Some(DailyRow(day, platform, GroupRevenue(ts, day, platform), GroupMargin(ts, day, platform)))
      else None
    decreases |ts|
  {
    if ts != [] {
      var rest := ts[1..];
      DailyLookup(rest, day, platform);
      InsertSorted(Daily(rest), ts[0]);
      InsertLookup(Daily(rest), ts[0], day, platform);
      assert HasGroup(ts, day, platform) <==> InGroup(ts[0], day, platform) || HasGroup(rest, day, platform) by {
        if HasGroup(rest, day, platform) {
          var k :| 0 <= k < |rest| && InGroup(rest[k], day, platform);
          assert InGroup(ts[k + 1], day, platform);
        }
        if HasGroup(ts, day, platform) && !InGroup(ts[0], day, platform) {
          var k :| 0 <= k < |ts| && InGroup(ts[k], day, platform);
          assert k > 0 && InGroup(rest[k - 1], day, platform);
        }
      }
      if !HasGroup(rest, day, platform) {
        EmptyGroup(rest, day, platform);
      }
    } else {
    }
  }

  lemma {:induction false} LookupFindsRow(rows: seq<DailyRow>, i: int)
    requires DistinctGroups(rows) && 0 <= i < |rows|
    ensures Lookup(rows, rows[i].day, rows[i].platform) == Some(rows[i])
    decreases |rows|
  {
    if i > 0 {
      assert rows[1..][i - 1] == rows[i];
      LookupFindsRow(rows[1..], i - 1);
    }
  }

  lemma {:induction false} LookupInRows(rows: seq<DailyRow>, day: int, platform: string)
    requires Lookup(rows, day, platform).Some?
    ensures exists i :: 0 <= i < |rows| && rows[i] == Lookup(rows, day, platform).value
    ensures Lookup(rows, day, platform).value.day == day && Lookup(rows, day, platform).value.platform == platform
    decreases |rows|
  {
    if rows[0].day != day || rows[0].platform != platform {
      LookupInRows(rows[1..], day, platform);
      var i :| 0 <= i < |rows[1..]| && rows[1..][i] == Lookup(rows, day, platform).value;
      assert rows[i + 1] == rows[1..][i];
    }
  }

  /** The daily chart: ordered by day, one row per (day, platform) group that has a
      transaction, each row holding its group's revenue and margin sums. */
  lemma DailyChartCorrect(ts: seq<SaleTransaction>)
    ensures SortedByDay(Daily(ts)) && DistinctGroups(Daily(ts))
    ensures forall i :: 0 <= i < |Daily(ts)| ==>
      HasGroup(ts, Daily(ts)[i].day, Daily(ts)[i].platform)
      && Daily(ts)[i].revenue == GroupRevenue(ts, Daily(ts)[i].day, Daily(ts)[i].platform)
      && Daily(ts)[i].netMargin == GroupMargin(ts, Daily(ts)[i].day, Daily(ts)[i].platform)
    ensures forall k :: 0 <= k < |ts| ==> exists i :: (0 <= i < |Daily(ts)|
      && Daily(ts)[i].day == DayOf(ts[k].transactionDate) && Daily(ts)[i].platform == ts[k].platform)
  {
    var rows := Daily(ts);
    DailyLookup(ts, 0, "");
    forall i | 0 <= i < |rows|
      ensures HasGroup(ts, rows[i].day, rows[i].platform)
        && rows[i].revenue == GroupRevenue(ts, rows[i].day, rows[i].platform)
        && rows[i].netMargin == GroupMargin(ts, rows[i].day, rows[i].platform)
    {
      LookupFindsRow(rows, i);
      DailyLookup(ts, rows[i].day, rows[i].platform);
    }
    forall k | 0 <= k < |ts|
      ensures exists i :: (0 <= i < |rows| && rows[i].day == DayOf(ts[k].transactionDate) && rows[i].platform == ts[k].platform)
    {
      assert InGroup(ts[k], DayOf(ts[k].transactionDate), ts[k].platform);
      DailyLookup(ts, DayOf(ts[k].transactionDate), ts[k].platform);
      LookupInRows(rows, DayOf(ts[k].transactionDate), ts[k].platform);
    }
  }

  function ChartRevenue(rows: seq<DailyRow>): real {
    if rows == [] then 0.0 else rows[0].revenue + ChartRevenue(rows[1..])
  }

  lemma {:induction false} InsertRevenue(rows: seq<DailyRow>, t: SaleTransaction)
    ensures ChartRevenue(Insert(rows, t)) == t.amount + ChartRevenue(rows)
    decreases |rows|
  {
    if rows != [] {
      if InGroup(t, rows[0].day, rows[0].platform) {
        assert Insert(rows, t)[1..] == rows[1..];
      } else if rows[0].day > DayOf(t.transactionDate) {
        assert Insert(rows, t)[1..] == rows;
      } else {
        InsertRevenue(rows[1..], t);
        assert Insert(rows, t)[1..] == Insert(rows[1..], t);
      }
    }
  }

  /** The chart's daily revenues add up to the revenue KPI. */
  lemma {:induction false} ChartAddsUpToKpi(ts: seq<SaleTransaction>)
    ensures ChartRevenue(Daily(ts)) == KpisOf(ts).revenue
    decreases |ts|
  {
    if ts != [] {
      ChartAddsUpToKpi(ts[1..]);
      InsertRevenue(Daily(ts[1..]), ts[0]);
    }
  }

  datatype AnalyticsReport = AnalyticsReport(kpis: Kpis, dailyChart: seq<DailyRow>)

  /** `NetMarginAnalyticsView.get` over the table `sales`; the chart rows are copied one by
      one from the grouped query. */
  method NetMarginAnalytics(sales: seq<SaleTransaction>, q: AnalyticsQuery) returns (report: AnalyticsReport)
    ensures report.kpis == KpisOf(Filter(sales, q))
    ensures report.dailyChart == Daily(Filter(sales, q))
  {
    var queryset := Filter(sales, q);
    var dailyData := Daily(queryset);
    var chart: seq<DailyRow> := [];
    for i := 0 to |dailyData|
      invariant chart == dailyData[..i]
    {
      var entry := dailyData[i];
      chart := chart + [DailyRow(entry.day, entry.platform, entry.revenue, entry.netMargin)];
    }
    assert dailyData[..|dailyData|] == dailyData;
    report := AnalyticsReport(KpisOf(queryset), chart);
  }
}
