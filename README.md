# ecommerce-tax-saas `finance_core` in Dafny

A model of the profitability and integration-sync core of the `finance_core` Django app.
It covers:

- **Net margin.** `calculate_net_margin` computes the margin of one sale: tax regime with or without an ICMS fiscal benefit, platform commission, and fixed or platform logistics.
- **Credential lifecycle.**
  - Mercado Livre (ML) token refresh, ML order fetch.
  - Shopee request signing and the Shopee client.
  - The OAuth start and callback views of both marketplaces.
  - The periodic `renew_all_platform_tokens` and `fetch_all_new_orders` tasks.
- **Order ingestion.** Each Shopee order is filed exactly once under `(organization, order_sn, 'SHOPEE')` with `get_or_create`, then its margin is recomputed.
- **Read-outs.**
  - Analytics KPIs and the daily chart.
  - Tax-regime simulation.
  - Admin integration health, the critical-error filter and the shortened message column.
- **Product-cost serializer.** The credit check and the `ProductCost.save` rule behind it.

Representation:

- **The database** is a value `Ledger.Db` with one map per table the tasks and views touch, keyed by the table's uniqueness key, plus the append-only error log. `Ledger.Valid` states the uniqueness constraints.
- **Mutating code** runs against the class `Ledger.Store`. Every such method ensures that the new `State()` equals a spec function of the old state, and lemmas about those spec functions carry the properties.
- **Money** is an exact `real`, standing for Python `Decimal`. Time is an integer number of seconds.
- **The outside world is a set of parameters:**
  - the clock (`now`);
  - the HMAC-SHA256 digest (`mac`);
  - each remote reply (`Remote<T>`, i.e. `Ok(payload)` or `Err(message)`). A key missing from a JSON reply is `None`.
- **Exceptions.** An exception the source does not catch becomes an explicit crash outcome: `Option` None, a `crashed` flag, `RefreshCrashed` or `Unhandled`.

## Model

| member | source | states |
|---|---|---|
| Models.NewTaxProfile | finance_core/models.py:29-39 | a tax profile created with only its organization is LUCRO_REAL, without fiscal benefit, at rate 0 |
| Models.CostsValid | finance_core/models.py:63-64 | the product-cost table holds one row per (organization, SKU), filed under that pair |
| Models.SaveProductCost | finance_core/models.py:66-70 | after save, net cost plus the three credits equals the gross cost, and no other field changes |
| Models.NewSaleTransaction | finance_core/models.py:84-98 | a new sale carries its key, amount and date, no shipping method, zero logistics, the fixed-cost flag off and no margin |
| Models.NewLogisticsCost | finance_core/models.py:150-153 | a new rule is filed under its key with fixed cost 0 |
| Models.NewIntegrationProfile | finance_core/models.py:110-126 | a new profile carries only the organization and the ML client id and secret; every token, expiry and Shopee field is null |
| Margin.Taxes | finance_core/utils.py:35-46 | the tax of `calculate_net_margin`: 0 without a profile, the benefit rate plus 9.25% with the flag, 27.25% less the credits clamped at 0 otherwise; its branches are stated by Margin.TaxBranches |
| Margin.NetMargin | finance_core/utils.py:22-62 | revenue less product cost, logistics, commission and taxes; its value is stated by Margin.NetMarginClosedForm |
| Margin.WithNetMargin | finance_core/utils.py:62-66 | the transaction gets the computed net margin stored on it and nothing else changes |
| Margin.TaxBranches | finance_core/utils.py:35-46 | no tax profile gives 0; the benefit branch gives revenue·rate/100 + revenue·9.25%; the standard branch gives revenue·27.25% clamped at 0 |
| Margin.TaxesNonNegative | finance_core/utils.py:38-46 | taxes are never negative for a non-negative revenue and benefit rate |
| Margin.BenefitNeverExceedsStandard | finance_core/utils.py:38-46 | with a benefit rate of at most 18, the benefit branch never taxes more than the standard branch |
| Margin.CommissionRateChoice | finance_core/utils.py:48-53 | the commission rate is 14% exactly for SHOPEE and 16% for every other label |
| Margin.LogisticsAuthority | finance_core/utils.py:55-59 | when the fixed-cost flag is set only the fixed cost counts, otherwise platform shipping plus the fixed cost |
| Margin.NetMarginClosedForm | finance_core/utils.py:27-62 | the margin is a fixed fraction of the revenue, depending on the tax branch and platform, minus logistics |
| Margin.RecomputeIdempotent | finance_core/utils.py:62-66 | recomputing the margin of a transaction that already has one changes nothing |
| Margin.BenefitScenario | finance_core/utils.py:38-62 | benefit rate 1 on 1000.00 ML revenue with 20.00 shipping: taxes 102.50, commission 160.00, margin 717.50 |
| Ledger.GetOrCreate | finance_core/utils.py:260-272 | returns the existing row when the key exists and leaves the store alone; otherwise files one new row built from the defaults under the key with the next id |
| Ledger.GetOrCreateKeepsValid | finance_core/models.py:100-101 | `get_or_create` keeps the uniqueness constraints and adds at most the one key |
| Ledger.RecordNetMargin | finance_core/utils.py:64-65 | the store after `transaction.save()`: only that sale's row is replaced, by the row with the recomputed margin |
| Ledger.RecordNetMarginKeepsValid | finance_core/utils.py:64-65 | recording a margin keeps the constraints and adds no sale |
| Ledger.Store.GetOrCreateSale | finance_core/utils.py:260-272 | the store method agrees with `GetOrCreate` in new state, row and created flag |
| Ledger.Store.CalculateNetMargin | finance_core/utils.py:22-66 | returns the net margin of the stored sale under its organization's tax profile and stores it on the row |
| Ledger.Store.LogError | finance_core/utils.py:124-129 | an error entry is appended to the log and nothing else changes |
| Ledger.Store.SaveProfile | finance_core/utils.py:114 | the profile row of the object's organization becomes the object |
| Signing.SignShopeeRequest | finance_core/shopee_utils.py:13-32 | the timestamp is the clock reading and the signature is the digest under the partner key of the base string |
| Signing.BaseStringWithoutOptionals | finance_core/tests/test_shopee_auth.py:13-23 | with neither token nor shop, the base string is partner id, path and timestamp, as the test recomputes it |
| Signing.TokenBeforeShop | finance_core/shopee_utils.py:19-24 | the access token is appended before the shop id |
| Signing.FalsyOptionalsOmitted | finance_core/shopee_utils.py:21-24 | a None or empty token and a None or 0 shop id leave no trace in the base string |
| Signing.DistinctTimestampsDistinctMessages | finance_core/shopee_utils.py:18-19 | two token-less signatures at different timestamps sign different messages |
| Signing.BaseStringAmbiguous | finance_core/shopee_utils.py:19-22 | without delimiters the base string does not determine its parts (timestamp 12 with token "3a" equals timestamp 123 with token "a") |
| ShopeeApi.ShopeeClient.GenerateSignature | finance_core/shopee_api.py:16-35 | without a partner key it raises; otherwise it signs the client's base string at the clock reading |
| ShopeeApi.ShopeeClient.CommonParams | finance_core/shopee_api.py:49-55 | every signed call carries exactly the five common parameters |
| ShopeeApi.ShopeeClient.MakeRequest | finance_core/shopee_api.py:37-62 | the request goes to the API base plus the path; its query is the common parameters overridden by the call's own |
| ShopeeApi.ShopeeClient.GetOrderList | finance_core/shopee_api.py:72-83 | the order list request is the signed common query plus the creation-time window and page size |
| ShopeeApi.ShopeeClient.GetOrderDetail | finance_core/shopee_api.py:85-94 | the detail request is the signed common query plus the joined serials and the optional fields |
| ShopeeApi.NewShopeeClient | finance_core/shopee_api.py:10-14 | the client exists exactly when the partner id parses and a truthy shop id parses; a falsy shop id becomes None |
| ShopeeApi.OrderListParams | finance_core/shopee_api.py:76-82 | the order list parameters are the four window keys, disjoint from the common keys |
| ShopeeApi.OrderDetailParams | finance_core/shopee_api.py:89-93 | the detail parameters are the comma-joined serials and the fixed optional-field list |
| ShopeeApi.UnoverriddenRequestVerifies | finance_core/shopee_api.py:44-58 | when a call's parameters leave the common keys alone, the receiver recomputes the same signature from the query |
| ShopeeApi.OrderCallsVerify | finance_core/shopee_api.py:72-94 | both order calls send queries whose signatures verify |
| ShopeeApi.OrderSnListRecoverable | finance_core/shopee_api.py:91 | splitting `order_sn_list` at commas gives back the serials, in order, when none contains a comma |
| ShopeeApi.StoredShopIdReadBack | finance_core/shopee_api.py:11-14 | a shop id stored as digits reaches the client as that number; a non-numeric one makes construction raise |
| Text.ParseIntRoundTrip | finance_core/shopee_api.py:11-14 | `int(str(i)) == i` for every integer |
| Text.IntToStringInjective | finance_core/shopee_utils.py:19 | distinct integers render as distinct decimal strings |
| Text.SplitJoin | finance_core/shopee_api.py:91 | splitting a join of comma-free parts gives the parts back |
| MlSync.RefreshMlTokenStep | finance_core/utils.py:88-130 | no refresh when fresh; saved exactly when due with all three reply keys, writing them; otherwise one ML `refresh_ml_token` log entry when due; the expiry is unchanged unless saved |
| MlSync.RefreshMlTokenAtomicStep | finance_core/utils.py:106-114 | the refresh with the fields assigned only after the whole reply is read: a refresh that is not saved leaves the object untouched |
| MlSync.AtomicRefreshSameStore | finance_core/utils.py:106-129 | the as-written and atomic refreshes leave the same store |
| MlSync.PartialAssignmentExample | finance_core/utils.py:111-114 | a reply without `refresh_token` leaves the new access token on the unsaved as-written object, but not on the atomic one |
| MlSync.RefreshEffect | finance_core/utils.py:88-130 | a refresh keeps the store valid, touches only the profile (when saved) or the log (one ML entry when it fails), and nothing when fresh |
| MlSync.RefreshMlToken | finance_core/utils.py:88-130 | the store method returns the atomic refresh's object and applies its outcome to the store |
| MlSync.MlFetchAll | finance_core/utils.py:132-165 | the ML fetch loop over the listed profiles; its effect is stated by MlSync.MlFetchAllEffect |
| MlSync.MlFetchAllEffect | finance_core/utils.py:132-165 | the ML fetch loop keeps the store valid and appends exactly the per-profile entries in queryset order; sales and rules stay |
| MlSync.EveryFailureLogged | finance_core/utils.py:156-165 | every listed eligible profile whose search fails gets its own fetch error entry |
| MlSync.EntriesFromEligibleProfiles | finance_core/utils.py:136-165 | every entry the loop appends is an ML entry of a listed, eligible profile, stamped now |
| MlSync.FetchAndProcessMlOrders | finance_core/utils.py:132-165 | the store method leaves the state the loop's spec gives for the profiles read at the start |
| ShopeeOrders.ExtractOrder | finance_core/utils.py:231-237 | the order is read exactly when serial, amount and creation time are present; carrier defaults to Standard and fee to 0; a missing serial reports the `order_sn` KeyError |
| ShopeeOrders.ResolveFixedCost | finance_core/utils.py:240-257 | the fixed cost is the matching SHOPEE rule's cost (0 without one); the flag is set exactly when that cost is positive |
| ShopeeOrders.SaveOrder | finance_core/utils.py:227-275 | one Shopee order saved, or the KeyError of a missing field; its effect is stated by ShopeeOrders.SaveOrderEffect |
| ShopeeOrders.SaveOrderEffect | finance_core/utils.py:227-275 | saving files exactly one row under the SHOPEE key; an existing row keeps every field but the recomputed margin; a new row takes the order's values and the next id |
| ShopeeOrders.SaveOrderIdempotent | finance_core/utils.py:260-275 | saving the same order twice leaves the store as saving it once |
| ShopeeOrders.ZeroCostRuleNotApplied | finance_core/utils.py:253-254 | a rule of cost 0 gives fixed cost 0 and leaves the flag off |
| ShopeeOrders.SaveOrders | finance_core/utils.py:213-214 | the batch loop, stopping at the first exception; its effect is stated by ShopeeOrders.SaveOrdersEffect |
| ShopeeOrders.SaveOrdersEffect | finance_core/utils.py:213-214 | a batch keeps the store valid, writes only sales, adds at most one row per order, and files every order when none raises |
| ShopeeOrders.KnownOrdersAddNoRows | finance_core/utils.py:260-272 | a batch of already filed orders adds no row and uses no id |
| ShopeeOrders.SaveShopeeOrder | finance_core/utils.py:227-275 | the store method agrees with the spec: a KeyError leaves the store untouched, otherwise the saved store |
| ShopeeOrders.SaveShopeeOrders | finance_core/utils.py:213-214 | the store method agrees with the batch spec in new state and error |
| ShopeeFetch.OrderSns | finance_core/utils.py:203-204 | the serial list succeeds exactly when every entry has `order_sn` and then lists them in order; otherwise it reports the `order_sn` KeyError |
| ShopeeFetch.NoCredentialsNoEffect | finance_core/utils.py:173-175 | without access token or shop id the fetch changes nothing |
| ShopeeFetch.ErrorEnvelopeLogsOnce | finance_core/utils.py:191-201 | an error envelope appends exactly one SHOPEE entry carrying the API message, and files no sale |
| ShopeeFetch.EmptyListNoDetailCall | finance_core/utils.py:206-207 | an empty order list ends the fetch before the detail call, so that reply is never read |
| ShopeeFetch.AppendShopeeLog | finance_core/utils.py:216-225 | logging a fetch failure keeps the store valid and grows the log by one entry of this org, platform and task |
| ShopeeFetch.FetchShopee | finance_core/utils.py:169-225 | one Shopee fetch for a profile, None when building the client raises; its effect is stated by ShopeeFetch.FetchShopeeEffect |
| ShopeeFetch.FetchShopeeEffect | finance_core/utils.py:169-225 | a completed fetch keeps the store valid, leaves profiles and rules alone, keeps every sale key, and appends at most one entry |
| ShopeeFetch.CompleteFetchFilesEveryOrder | finance_core/utils.py:209-214 | a successful detail call with well-formed orders files every order and logs nothing |
| ShopeeFetch.SaveOrdersCompletes | finance_core/utils.py:213-214 | a batch of well-formed orders is saved without error |
| ShopeeFetch.FetchWithClient | finance_core/utils.py:187-225 | with a built client: leaves the store alone on a quiet path, appends the one Shopee entry on a logged one, files the orders on a saving one; sends the list request exactly when signing is possible and the detail request exactly for a non-empty, well-formed, error-free list |
| ShopeeFetch.FetchAndProcessShopeeOrders | finance_core/utils.py:169-225 | crashes exactly when the spec does; otherwise leaves the spec's store; sends the list request, then the detail request only for a non-empty list |
| ShopeeBulk.BulkQuietCases | finance_core/shopee_utils.py:40-80 | skipped profiles, failed calls, error envelopes and empty lists leave the store alone |
| ShopeeBulk.BulkFetchAll | finance_core/shopee_utils.py:34-80 | the bulk loop over the listed profiles with its crash flag; its effect is stated by ShopeeBulk.BulkFetchAllEffect |
| ShopeeBulk.BulkFetchAllEffect | finance_core/shopee_utils.py:34-80 | the bulk loop keeps the store valid and writes only sales; it never logs |
| ShopeeBulk.BulkCrashCause | finance_core/shopee_utils.py:44-50 | the loop ends in an exception only at a listed profile with credentials whose ids do not parse or whose key is missing |
| ShopeeBulk.ProcessShopeeOrderDetails | finance_core/shopee_utils.py:82-108 | the store method crashes exactly when the spec does, leaving the store then; otherwise it leaves the spec's store |
| ShopeeBulk.BulkFetchShopeeOrders | finance_core/shopee_utils.py:34-80 | the store method agrees with the bulk loop's spec in new state and crash flag |
| Tasks.RefreshShopeeTokenStep | finance_core/tasks.py:125-157 | raises exactly when partner or shop id do not parse; saved exactly when signing works and the reply has both tokens and no error; an unsaved object differs at most in its access token |
| Tasks.RefreshShopeeTokenIsolatedStep | finance_core/tasks.py:129-137 | the refresh with the body built inside the `try`: it never raises, and a bad id leaves the object as it was |
| Tasks.ShopeeRefreshNeverLogs | finance_core/tasks.py:144-157 | the Shopee refresh keeps the store valid, never logs, and changes nothing when not saved |
| Tasks.RefreshShopeeToken | finance_core/tasks.py:125-157 | the store method returns the isolated refresh's object and applies its outcome |
| Tasks.MlRenewed | finance_core/tasks.py:73-78 | the ML half of the renewal keeps the profile's organization |
| Tasks.ShopeeRenewed | finance_core/tasks.py:81-82 | the Shopee half of the renewal keeps the profile's organization |
| Tasks.RenewedProfileFields | finance_core/tasks.py:71-82 | after renewal the ML fields are new exactly when the ML refresh completes and the Shopee tokens exactly when the Shopee half is gated in and saves; every other field is unchanged |
| Tasks.MlHalfEffect | finance_core/tasks.py:73-78 | the ML half writes only this profile and appends at most one entry |
| Tasks.ShopeeHalfEffect | finance_core/tasks.py:81-82 | the Shopee half writes only this profile and never logs |
| Tasks.RenewProfileEffect | finance_core/tasks.py:71-82 | one iteration writes the renewed profile, keeps sales, rules and tax profiles, and appends at most one entry |
| Tasks.RenewSweep | finance_core/tasks.py:64-84 | the corrected sweep over the profiles read at the start; its effect is stated by Tasks.RenewSweepEffect |
| Tasks.RenewSweepEffect | finance_core/tasks.py:64-84 | the sweep stores the renewed profile for every listed organization, leaves the others alone, keeps sales, rules and tax profiles, and only appends to the log |
| Tasks.RenewProfileAsWritten | finance_core/tasks.py:71-82 | one iteration as written: the ML refresh commits, then the Shopee refresh of the same object may raise |
| Tasks.RenewProfileAsWrittenCrash | finance_core/tasks.py:71-82 | an iteration raises exactly when the profile passes the Shopee gate with ids that do not convert, and the crash keeps what the ML refresh committed |
| Tasks.RenewProfileAsWrittenEffect | finance_core/tasks.py:71-82 | an iteration as written keeps the store valid, writes only profiles and appends at most one entry |
| Tasks.RenewSweepAsWritten | finance_core/tasks.py:64-84 | the sweep as written, ending at the first exception with the store as it stands then |
| Tasks.RenewSweepAsWrittenEffect | finance_core/tasks.py:64-84 | the sweep as written keeps the store valid, writes only profiles, only appends to the log, and ends in an exception exactly when some listed profile passes the Shopee gate with ids that do not convert |
| Tasks.MlWriteSurvivesShopeeCrash | finance_core/tasks.py:73-82 | as written, an ML refresh that saves a-new/r-new stays in the store when the Shopee refresh of the same profile raises on the missing shop id |
| Tasks.MissingShopIdStopsSweep | finance_core/tasks.py:129-134 | as written, a profile with a Shopee refresh token but no shop id aborts the sweep and the next profile's ML token is never renewed; the corrected sweep renews it |
| Tasks.PartialMlTokenPersisted | finance_core/tasks.py:73-82 | as written, an ML reply without `refresh_token` leaves the new access token with the old refresh token, written by the Shopee save; the corrected sweep keeps the old access token |
| Tasks.RenewAllPlatformTokens | finance_core/tasks.py:64-84 | the store method leaves the corrected sweep's store for the profiles read at the start |
| Tasks.ShopeeFetchAllEffect | finance_core/tasks.py:119-121 | the Shopee loop keeps the store valid, writes only sales and log entries, and crashes only at a profile with credentials whose client cannot be built |
| Tasks.FetchAllEffect | finance_core/tasks.py:87-123 | the order collection keeps the store valid, leaves rules and tax profiles, and only appends to the log |
| Tasks.FetchAllNewOrders | finance_core/tasks.py:87-123 | the store method agrees with the ML loop then the Shopee loop, in state and crash flag |
| Analytics.RegimeRate | finance_core/analytics_views.py:117-129 | the simulated rate lies between 0 and the PADRAO rate, and is 0 exactly for an unknown regime |
| Analytics.PadraoIsCalculatorStandard | finance_core/analytics_views.py:122-124 | the PADRAO rate is the calculator's 18% ICMS plus 9.25% PIS/COFINS |
| Analytics.OriginalTaxesMatchCalculator | finance_core/analytics_views.py:145-158 | the recomputed old taxes equal the calculator's taxes except on negative revenue under the standard branch, which the simulation does not clamp |
| Analytics.SimulateRow | finance_core/analytics_views.py:113-173 | a row carries the sale's id, external id, revenue, current margin and regime; the simulated margin is the stored margin plus the re-derived old taxes minus the simulated tax; diff is the simulated margin minus the current one, that is the old taxes minus the simulated tax |
| Analytics.SimulationReplacesTax | finance_core/analytics_views.py:160-163 | on a sale whose stored margin is current, the simulated margin is the calculator's margin with the simulated tax in place of the real one |
| Analytics.PadraoLeavesStandardTenant | finance_core/analytics_views.py:122-171 | simulating PADRAO for a tenant without benefit changes nothing: diff 0 |
| Analytics.SimulationScenario | finance_core/analytics_views.py:145-171 | benefit rate 1 on 1000.00 with margin 717.50: old taxes 102.50, PADRAO margin 547.50, diff −170 |
| Analytics.Matched | finance_core/analytics_views.py:110 | the selected sales are exactly those whose id is listed |
| Analytics.SimulateTaxes | finance_core/analytics_views.py:103-175 | empty ids or a missing regime get the 400 reply; otherwise a matched sale without a stored margin raises, and without one the reply is one simulated row per matched sale |
| Analytics.SimulateOne | finance_core/analytics_views.py:113-173 | one pass of the loop: an unlisted sale adds no row; a listed sale without a stored margin raises, which means the request is not simulable; otherwise its simulated row is appended, keeping the rows equal to the simulation of the sales seen so far |
| Analytics.SimulationCoversMatched | finance_core/analytics_views.py:110-175 | as many rows as matched sales; row k belongs to the k-th matched stored sale, whose id was listed, carries the requested regime, its revenue, its current margin, its simulated margin (stored margin plus old taxes minus simulated tax) and its diff |
| Analytics.Filter | finance_core/analytics_views.py:22-33 | a sale is kept exactly when it passes the organization, date-range and platform filters |
| Analytics.FilterEdges | finance_core/analytics_views.py:27-33 | platform ALL filters nothing; both date bounds are inclusive |
| Analytics.AllIsNoPlatformFilter | finance_core/analytics_views.py:32-33 | the filtered sequence under ALL equals the one without a platform filter |
| Analytics.KpisOf | finance_core/analytics_views.py:60-95 | revenue and margin are the sums (null margin sums to 0); costs plus margin equal revenue; the percentage is margin/revenue·100, or 0 when revenue ≤ 0 |
| Analytics.SumMarginBounded | finance_core/analytics_views.py:60-68 | with non-negative amounts and margins within them, the margin sum lies between 0 and the revenue |
| Analytics.MarginPercentageBounds | finance_core/analytics_views.py:94 | under the same bounds the margin percentage lies between 0 and 100 |
| Analytics.InsertSorted | finance_core/analytics_views.py:72-77 | adding a sale to the chart keeps it ordered by day with one row per (day, platform) |
| Analytics.InsertLookup | finance_core/analytics_views.py:72-77 | adding a sale changes only its own group's row: created, or revenue and margin added |
| Analytics.Daily | finance_core/analytics_views.py:72-87 | the daily chart built by inserting the sales one by one; its correctness is stated by Analytics.DailyChartCorrect |
| Analytics.DailyLookup | finance_core/analytics_views.py:72-77 | a group's chart row exists exactly when some sale is in the group, and holds the group's revenue and margin sums |
| Analytics.DailyChartCorrect | finance_core/analytics_views.py:72-87 | the chart is sorted by day, one row per group, each row holding its group's sums, and every sale's group has a row |
| Analytics.ChartAddsUpToKpi | finance_core/analytics_views.py:60-87 | the chart's revenues add up to the revenue KPI |
| Analytics.NetMarginAnalytics | finance_core/analytics_views.py:15-97 | the report's KPIs and chart are those of the filtered sales |
| Views.LookUp | finance_core/views.py:56-59 | a non-numeric id is a bad id; the profile is found exactly when the numeric id is stored |
| Views.MlAuthStart | finance_core/views.py:45-66 | the ML authorization start view; its outcomes are stated by Views.MlAuthStartOutcomes |
| Views.MlAuthStartOutcomes | finance_core/views.py:45-66 | 400 exactly without an organization id, 404 exactly for no profile, otherwise the redirect to the ML authorization URL with the profile's client id and the id as state |
| Views.MlCallback | finance_core/views.py:72-108 | the ML callback view against the store; its effect is stated by Views.MlCallbackEffect |
| Views.MlCallbackEffect | finance_core/views.py:72-108 | 400 exactly on a missing code or state; success exactly when the profile exists and both tokens come back, storing them with expiry now + `expires_in` (default 21600); otherwise no change |
| Views.MlStateRoundTrip | finance_core/views.py:62-105 | the state the start view sends back makes a complete callback store the tokens on the same organization's profile |
| Views.MlAuthCallback | finance_core/views.py:72-108 | the store method agrees with the callback spec in reply and state |
| Views.ShopeeAuthStartSpec | finance_core/views.py:114-134 | the Shopee authorization start view; its outcomes are stated by Views.ShopeeAuthStartOutcomes |
| Views.ShopeeAuthStartOutcomes | finance_core/views.py:114-134 | 400 without an id, 404 without a profile, 400 without partner id or key; the redirect carries the raw partner id, timestamp, signature over the token-less base string, redirect URL and state |
| Views.ShopeeAuthStart | finance_core/views.py:114-134 | the view method returns what its spec gives |
| Views.ShopeeCallback | finance_core/views.py:140-181 | the Shopee callback view against the store; its effect is stated by Views.ShopeeCallbackEffect |
| Views.ShopeeCallbackEffect | finance_core/views.py:140-181 | 400 exactly on a missing param, 404 exactly for no profile, success exactly when ids parse and the reply has both tokens and no error, storing tokens and shop id; otherwise no change |
| Views.ShopeeErrorEnvelopeRejected | finance_core/views.py:170-171 | an error envelope gets a 400 carrying the API message and changes nothing |
| Views.ShopeeAuthCallback | finance_core/views.py:140-181 | the store method agrees with the callback spec in reply and state |
| Admin.RecentErrorCountAppend | finance_core/admin.py:23-26 | appending an entry adds one to an organization's recent count exactly when it is that organization's and within 24 hours |
| Admin.HealthStatus | finance_core/admin.py:18-47 | the health read-out with the declared profile relation; its cases are stated by Admin.HealthStatusCases |
| Admin.HealthStatusAsWritten | finance_core/admin.py:18-47 | the read-out as written: CRITICAL with recent errors, otherwise the `AttributeError` of `obj.integrationprofile` |
| Admin.HealthStatusRaises | finance_core/admin.py:28-33 | as written, the read-out raises exactly for an organization without recent errors, and otherwise agrees with the intended one |
| Admin.HealthyOrganizationRaises | finance_core/admin.py:33 | a connected organization with an empty log is Healthy as intended, while the written read-out raises |
| Admin.HealthStatusCases | finance_core/admin.py:18-47 | CRITICAL exactly with recent errors, carrying their count; No Profile exactly without errors and profile; otherwise Healthy, Partial or No Integrations by the two access tokens |
| Admin.LoggedFailureIsCritical | finance_core/admin.py:23-29 | an entry logged for an organization within the last 24 hours makes it CRITICAL with one more error |
| Admin.PartialBadge | finance_core/admin.py:39-42 | an organization with only the ML token shows "Partial (ML: OK, Shopee: Missing)" |
| Admin.Select | finance_core/admin.py:83-87 | a filtered entry is a log entry whose criticality matches the side asked for |
| Admin.CriticalFilter | finance_core/admin.py:83-87 | `CriticalErrorFilter.queryset`: the critical entries for 'yes', the others for 'no', the log unchanged otherwise; its split is stated by Admin.CriticalFilterPartitions |
| Admin.CriticalFilterPartitions | finance_core/admin.py:83-87 | 'yes' and 'no' split the log: each entry lands on exactly one side and together they hold every entry with its multiplicity |
| Admin.MlRefreshFailuresAreCritical | finance_core/admin.py:85 | every failure the ML token refresh logs shows under 'yes', because its task name contains "token" |
| Admin.ShortError | finance_core/admin.py:96-97 | a message of at most 50 characters is shown whole, a longer one as its first 50 characters and "..."; never more than 53 characters |
| Serializers.Validate | finance_core/serializers.py:32-50 | `validate`: the credits, each missing one as 0, against the gross cost; its cases are stated by Serializers.ValidateCases |
| Serializers.CreateProductCost | finance_core/serializers.py:21-50 | the corrected POST, with credit defaults of `Decimal('0.00')`: field validation, the (organization, SKU) uniqueness check, `validate`, then the save rule; its outcomes are stated by Serializers.CreatedCostNonNegative |
| Serializers.NetCostAsWrittenCases | finance_core/models.py:66-70 | the net-cost expression of `save` raises exactly when some credit is a `float` rather than a `Decimal`, and otherwise is the gross cost less the three credits |
| Serializers.CreateProductCostAsWritten | finance_core/models.py:56-58 | the POST as written: the same checks, then a save over a row whose left-out credits hold the `float` default `0.00`; its outcomes are stated by Serializers.CreateAsWrittenCases |
| Serializers.CreateAsWrittenCases | finance_core/models.py:56-69 | as written, a create breaks exactly when the corrected create would save it and some credit was left out; every other create gets the corrected reply |
| Serializers.OmittedCreditsCrash | finance_core/models.py:56-69 | a POST of gross cost 100.00 with no credits breaks as written, and the corrected create files it with net cost 100.00 |
| Serializers.ValidateCases | finance_core/serializers.py:32-50 | the check passes exactly when the credits it sees (missing ones as 0) do not exceed the gross cost (equality passes), returns the data unchanged, and raises only without a gross cost |
| Serializers.CreatedCostNonNegative | finance_core/serializers.py:21-50 | the corrected create never crashes; it saves exactly when the gross cost is present and non-negative, the (organization, SKU) pair is free and the credits fit; a taken pair gets the uniqueness 400; the saved cost has net ≥ 0 and its credits are the request's |
| Serializers.CreateKeepsCostsUnique | finance_core/models.py:63-64 | a create keeps one product cost per (organization, SKU): it adds exactly the new key, never overwrites a stored row, and a refused request leaves the table as it was |
| Serializers.UpdateProductCostAsWritten | finance_core/serializers.py:32-50 | a PUT or PATCH as written: `validate` sees only the submitted fields while the save keeps the stored ones; its failure is shown by Serializers.PatchBypassesCreditCheck |
| Serializers.PatchBypassesCreditCheck | finance_core/serializers.py:36-44 | as written, a PATCH of the gross cost alone saves net −40 over stored credits of 50, and a PATCH without gross cost raises; the corrected update rejects the first |
| Serializers.UpdateProductCost | finance_core/serializers.py:32-50 | the corrected update, checking the row as it will be saved; its outcomes are stated by Serializers.UpdatedCostNonNegative |
| Serializers.UpdatedCostNonNegative | finance_core/serializers.py:32-50 | the corrected update never crashes, saves exactly when the row as saved keeps its credits within its gross cost, and never stores a negative net cost |
| Serializers.CreateOrganization | finance_core/serializers.py:10-14 | the new organization's owner is the requesting user; name and CNPJ come from the data |
| Serializers.SuppliedOwnerIgnored | finance_core/serializers.py:8-14 | no supplied owner changes who owns the new organization |

## Left out

- HTTP, JSON decoding, `requests`, Django ORM querysets and DRF responses. Remote replies become `Remote<T>` parameters; querysets become maps and sequences in fixed order.
- The clock, and the HMAC-SHA256 digest (the `mac` parameter). `timezone.now()` and `time.time()` are the `now` parameter. One call of a task, view or sweep reads the clock once: the source reads it again for each profile, token expiry and signature, so the model does not capture time passing between them.
- `Decimal` context, quantization to two places and column digit limits. Money is an exact real.
- Logging, `print`, and `send_alert_email`: e-mail is a side effect outside the store.
- `process_single_order` of the ML fetch is not part of the source here. Each order found by the search is folded into the `search` reply, which either succeeds or fails.
- The item-linking stub at the end of `save_shopee_order`: it does nothing.
- `ShopeeClient.get_user_info`, the viewsets other than the product-cost checks, the frontend, settings, URLs, WSGI and the management command.
- Python `int()` accepts surrounding whitespace, a sign and underscores; `Text.ParseInt` accepts an optional `+` or `-` sign then ASCII digits only.
- The query strings of the bulk fetch's URLs, and the `requests` handling of `None` parameters beyond dropping them.
- The first definition of `refresh_shopee_token` in finance_core/tasks.py: the second definition shadows it, and the sweep uses the second.
- `@shared_task` is used in finance_core/tasks.py without being imported. The model assumes the decorator is present.
- Admin `health_status` reads `obj.integrationprofile`, but the related name is `integration_profile`. `Admin.HealthStatus` models the evident intent: it reads the declared profile. As written, the lookup raises `AttributeError` whenever no recent error was found, and that error is not caught: `Admin.HealthStatusAsWritten` models that, and the badge lemmas describe the intended read-out (see Findings).
- JSON `null` and a missing key are the same `None` in `ShopeeOrders.ExtractOrder`, `ShopeeApi.ShopeeTokenReply` and `MlSync.MlTokenPayload`. In the source, `.get(key, default)` returns `None` for a null value, not the default. So a null `shipping_carrier` is `None` rather than "Standard", and a null `actual_shipping_fee` raises `TypeError` in `Decimal(None)`. A null `expires_in` in the ML callback raises `TypeError` in `timedelta(seconds=None)`, and a null `expire_in` does the same inside the Shopee refresh's `try`, so that refresh is logged and not saved. The model applies the default in every one of these cases.
- Analytics.SimulateRow: it requires a stored net margin. The `TypeError` the source raises on a null margin is the `Raised` reply of `Analytics.SimulateTaxes`.
- The daily chart groups by UTC day (`instant / 86400`), while `TruncDate` uses the active time zone. Date filters are given as instants, not as date strings parsed by the ORM.
- Organization names in response bodies and log messages are not modelled: log messages carry only the exception text.
- The Shopee refresh's `expire_in` is assigned to an attribute with no column, so it is not stored and not modelled.
- The analytics aggregates `total_platform_shipping` and `total_fixed_logistics` are computed but never returned, so they are left out.
- Rows within one chart day follow the model's insertion order. The database orders only by date.
- The product-cost table is a map given to the serializer functions, not a table of `Ledger.Db`: no other core operation reads or writes it.
- Serializers.UpdateProductCost: a request carries only the numeric fields here, so an update cannot move a row to another (organization, SKU) pair and the uniqueness validator never refuses one.
- Tasks.MlRenewed: its own contract states only that the organization is kept; the field-level effect is stated by `Tasks.RenewedProfileFields`.
- Tasks.ShopeeRenewed: its own contract states only that the organization is kept; the field-level effect is stated by `Tasks.RenewedProfileFields`.
- Admin.MlRefreshFailuresAreCritical: it covers the task name of the ML refresh; Shopee refresh failures are not logged by the shadowing definition.

## Findings

| source | as written | input that shows it | evidently intended | confidence | as-written member | corrected member |
|---|---|---|---|---|---|---|
| finance_core/tasks.py:129-134 | the refresh body converts the partner and shop ids with `int()` before the `try`, so a `ValueError`/`TypeError` escapes and ends the whole renewal sweep | a profile with a Shopee refresh token and partner id "7" but no shop id, listed before a profile whose ML token is due | build the body inside the `try`, so that one tenant's bad data does not stop the renewal of the others | not executed | Tasks.MissingShopIdStopsSweep | Tasks.RefreshShopeeTokenIsolatedStep |
| finance_core/utils.py:111-114 | `refresh_ml_token` assigns `ml_access_token` before reading `refresh_token`; on a `KeyError` the object keeps the new access token unsaved, and the sweep's later Shopee `profile.save()` stores it with the old refresh token | ML reply `{access_token: "a-new", expires_in: 21600}` for a profile with tokens a-old/r-old, followed by a successful Shopee refresh | assign the three fields only after the whole reply has been read | not executed | Tasks.PartialMlTokenPersisted | MlSync.RefreshMlTokenAtomicStep |
| finance_core/serializers.py:36-44 | on an update, `validate` sees only the submitted fields and counts each missing credit as 0, while the save keeps the stored credits; without a gross cost the comparison raises `TypeError` | stored gross 100 with ICMS credit 50; PATCH `{gross_cost: 10}` saves net −40 | check the credits of the row as it will be saved | not executed | Serializers.PatchBypassesCreditCheck | Serializers.UpdatedCostNonNegative |
| finance_core/models.py:56-58 | the credit fields default to the `float` `0.00`; a model serializer leaves a credit the request omits out of `validated_data`, so the new row holds the `float` and `save` (models.py:69) raises `TypeError` on `Decimal - float` | POST `{organization, sku, ncm, gross_cost: "100.00"}` without credits | `default=Decimal('0.00')` | not executed | Serializers.OmittedCreditsCrash | Serializers.CreatedCostNonNegative |
| finance_core/admin.py:33 | `health_status` reads `obj.integrationprofile`, but the relation's related name is `integration_profile`, so the `AttributeError` escapes the `except IntegrationProfile.DoesNotExist` | an organization with both access tokens and no log entry | read `obj.integration_profile` | not executed | Admin.HealthyOrganizationRaises | Admin.HealthStatusCases |
