/** Mapping one Shopee order detail onto a sale (`process_shopee_single_order` in
    finance_core/utils.py and its copy `save_shopee_order` in finance_core/shopee_utils.py):
    the logistics rule lookup, `get_or_create` on the sale key and the margin recompute. */
module ShopeeOrders {
  import opened Common
  import opened Models
  import opened Ledger
  import Margin

  const DEFAULT_CARRIER: string := "Standard"

  /** One entry of the detail response's `order_list`; None marks an absent key. */
  datatype RawShopeeOrder = RawShopeeOrder(
    orderSn: Option<string>,
    totalAmount: Option<real>,
    createTime: Option<int>,
    shippingCarrier: Option<string>,
    actualShippingFee: Option<real>)

  /** The fields read from an order, defaults applied. */
  datatype ShopeeOrder = ShopeeOrder(orderSn: string, amount: real, createTime: int, carrier: string, fee: real)

  /** Reads the three required keys in the source's order (a missing one raises `KeyError`)
      and defaults the carrier to 'Standard' and the fee to 0. */
  function ExtractOrder(raw: RawShopeeOrder): (r: Result<ShopeeOrder>)
    ensures r.Success? <==> raw.orderSn.Some? && raw.totalAmount.Some? && raw.createTime.Some?
    ensures r.Success? ==> (r.value.orderSn == raw.orderSn.value && r.value.amount == raw.totalAmount.value
      && r.value.createTime == raw.createTime.value)
    ensures r.Success? ==> r.value.carrier == (if raw.shippingCarrier.Some? then raw.shippingCarrier.value else DEFAULT_CARRIER)
    ensures r.Success? ==> r.value.fee == (if raw.actualShippingFee.Some? then raw.actualShippingFee.value else 0.0)
    ensures raw.orderSn.None? ==> r == Failure(KeyErrorMessage("order_sn"))
  {
    if raw.orderSn.None? then Failure(KeyErrorMessage("order_sn"))
    else if raw.totalAmount.None? then Failure(KeyErrorMessage("total_amount"))
    else if raw.createTime.None? then Failure(KeyErrorMessage("create_time"))
    else Success(ShopeeOrder(raw.orderSn.value, raw.totalAmount.value, raw.createTime.value,
                             raw.shippingCarrier.GetOr(DEFAULT_CARRIER), raw.actualShippingFee.GetOr(0.0)))
  }

  /** The fixed cost and flag for a carrier: the matching SHOPEE rule's cost whenever a rule
      exists, the flag only when that cost is positive. */
  function ResolveFixedCost(rules: map<LogisticsKey, LogisticsCost>, org: OrgId, carrier: string): (r: (real, bool))
    ensures var key := LogisticsKey(org, SHOPEE, carrier);
      && (r.1 <==> key in rules && rules[key].fixedCostValue > 0.0)
      && r.0 == (if key in rules then rules[key].fixedCostValue else 0.0)
    ensures r.1 ==> r.0 > 0.0
  {
    var key := LogisticsKey(org, SHOPEE, carrier);
    if key in rules then
      var cost := rules[key].fixedCostValue;
      (cost, cost > 0.0)
    else (0.0, false)
  }

  /** The `defaults` handed to `get_or_create`. */
  function OrderDefaults(o: ShopeeOrder, org: OrgId, rules: map<LogisticsKey, LogisticsCost>): SaleTransaction {
    var fixed := ResolveFixedCost(rules, org, o.carrier);
    NewSaleTransaction(0, SaleKey(org, o.orderSn, SHOPEE), o.amount, o.createTime)
      .(shippingMethod := Some(o.carrier), shippingCostPlatform := o.fee,
        calculatedFixedCost := fixed.0, isFixedCostApplied := fixed.1)
  }

  /** The store after saving one order, or the `KeyError` text when a required key is
      missing (raised before anything is written). */
  function SaveOrder(db: Db, org: OrgId, raw: RawShopeeOrder): Result<Db> {
    match ExtractOrder(raw)
    case Failure(e) => Failure(e)
    case Success(o) =>
      var key := SaleKey(org, o.orderSn, SHOPEE);
      var (db1, _, _) := GetOrCreate(db, key, OrderDefaults(o, org, db.logistics));
      Success(RecordNetMargin(db1, key))
  }

  /** Saving an order files exactly one row under `(org, order_sn, 'SHOPEE')`. An existing row
      keeps every field but its recomputed margin; a new row carries the order's amount,
      date, carrier and fee and the rule's fixed cost and flag. Nothing else changes. */
  lemma SaveOrderEffect(db: Db, org: OrgId, raw: RawShopeeOrder)
    requires Valid(db) && SaveOrder(db, org, raw).Success?
    ensures var db' := SaveOrder(db, org, raw).value;
      var o := ExtractOrder(raw).value;
      var key := SaleKey(org, o.orderSn, SHOPEE);
      var fixed := ResolveFixedCost(db.logistics, org, o.carrier);
      && Valid(db')
      && db'.sales.Keys == db.sales.Keys + {key}
      && (forall k :: k in db.sales && k != key ==> db'.sales[k] == db.sales[k])
      && db'.taxProfiles == db.taxProfiles && db'.profiles == db.profiles
      && db'.logistics == db.logistics && db'.errorLog == db.errorLog
      && db'.sales[key].netMargin == Some(Margin.NetMargin(db'.sales[key], TaxProfileOf(db, org)))
      && (key in db.sales ==>
            db'.sales[key].(netMargin := db.sales[key].netMargin) == db.sales[key]
            && db'.nextSaleId == db.nextSaleId)
      && (key !in db.sales ==>
            && db'.sales[key].id == db.nextSaleId && db'.nextSaleId == db.nextSaleId + 1
            && db'.sales[key].amount == o.amount && db'.sales[key].transactionDate == o.createTime
            && db'.sales[key].shippingMethod == Some(o.carrier) && db'.sales[key].shippingCostPlatform == o.fee
            && db'.sales[key].calculatedFixedCost == fixed.0 && db'.sales[key].isFixedCostApplied == fixed.1)
  {
    SaveOrderFrame(db, org, raw);
    SaveOrderRow(db, org, raw);
  }

  /** The rows part of `SaveOrderEffect`. */
  lemma SaveOrderRow(db: Db, org: OrgId, raw: RawShopeeOrder)
    requires Valid(db) && SaveOrder(db, org, raw).Success?
    ensures var db' := SaveOrder(db, org, raw).value;
      var o := ExtractOrder(raw).value;
      var key := SaleKey(org, o.orderSn, SHOPEE);
      var fixed := ResolveFixedCost(db.logistics, org, o.carrier);
      && key in db'.sales
      && (forall k :: k in db.sales && k != key ==> k in db'.sales && db'.sales[k] == db.sales[k])
      && db'.sales[key].netMargin == Some(Margin.NetMargin(db'.sales[key], TaxProfileOf(db, org)))
      && (key in db.sales ==>
            db'.sales[key].(netMargin := db.sales[key].netMargin) == db.sales[key]
            && db'.nextSaleId == db.nextSaleId)
      && (key !in db.sales ==>
            && db'.sales[key].id == db.nextSaleId && db'.nextSaleId == db.nextSaleId + 1
            && db'.sales[key].amount == o.amount && db'.sales[key].transactionDate == o.createTime
            && db'.sales[key].shippingMethod == Some(o.carrier) && db'.sales[key].shippingCostPlatform == o.fee
            && db'.sales[key].calculatedFixedCost == fixed.0 && db'.sales[key].isFixedCostApplied == fixed.1)
  {
    var o := ExtractOrder(raw).value;
    var key := SaleKey(org, o.orderSn, SHOPEE);
    var db1 := GetOrCreate(db, key, OrderDefaults(o, org, db.logistics)).0;
    assert db1.sales[key].organization == org && db1.taxProfiles == db.taxProfiles;
    Margin.RecomputeIdempotent(db1.sales[key], TaxProfileOf(db, org));
  }

  /** Saving the same order twice leaves the store as saving it once: the second call finds
      the row and recomputes the margin it already has. */
  lemma SaveOrderIdempotent(db: Db, org: OrgId, raw: RawShopeeOrder)
    requires Valid(db) && SaveOrder(db, org, raw).Success?
    ensures SaveOrder(SaveOrder(db, org, raw).value, org, raw) == SaveOrder(db, org, raw)
  {
    SaveOrderFrame(db, org, raw);
    SaveOrderRow(db, org, raw);
    var db' := SaveOrder(db, org, raw).value;
    var key := SaleKey(org, ExtractOrder(raw).value.orderSn, SHOPEE);
    var row := db'.sales[key];
    assert row.organization == org && TaxProfileOf(db', org) == TaxProfileOf(db, org);
    assert Margin.WithNetMargin(row, TaxProfileOf(db', org)) == row;
    assert db'.sales[key := row] == db'.sales;
  }

  /** A rule of cost 0 is still found: the fixed cost is 0 and the platform fee counts. */
  lemma ZeroCostRuleNotApplied(rules: map<LogisticsKey, LogisticsCost>, org: OrgId, carrier: string)
    requires LogisticsKey(org, SHOPEE, carrier) in rules
    requires rules[LogisticsKey(org, SHOPEE, carrier)].fixedCostValue == 0.0
    ensures ResolveFixedCost(rules, org, carrier) == (0.0, false)
  {
  }

  /** The orders of one detail response, saved in order; the first missing key ends the loop
      with the orders before it saved. The second component is the error that stopped it. */
  function SaveOrders(db: Db, org: OrgId, orders: seq<RawShopeeOrder>): (Db, Option<string>)
    decreases |orders|
  {
    if orders == [] then (db, None)
    else match SaveOrder(db, org, orders[0])
      case Failure(e) => (db, Some(e))
      case Success(db1) => SaveOrders(db1, org, orders[1..])
  }

  /** The part of `SaveOrderEffect` a batch needs: one key more at most, other tables kept. */
  lemma SaveOrderFrame(db: Db, org: OrgId, raw: RawShopeeOrder)
    requires Valid(db) && SaveOrder(db, org, raw).Success?
    ensures var db' := SaveOrder(db, org, raw).value;
      && Valid(db')
      && db'.sales.Keys == db.sales.Keys + {SaleKey(org, ExtractOrder(raw).value.orderSn, SHOPEE)}
      && db'.taxProfiles == db.taxProfiles && db'.profiles == db.profiles
      && db'.logistics == db.logistics && db'.errorLog == db.errorLog
  {
    var o := ExtractOrder(raw).value;
    var key := SaleKey(org, o.orderSn, SHOPEE);
    GetOrCreateKeepsValid(db, key, OrderDefaults(o, org, db.logistics));
    var db1 := GetOrCreate(db, key, OrderDefaults(o, org, db.logistics)).0;
    RecordNetMarginKeepsValid(db1, key);
  }

  lemma AddOneKey<K>(s: set<K>, k: K)
    ensures |s + {k}| <= |s| + 1
  {
    if k !in s {
      assert |s + {k}| == |s| + 1;
    } else {
      assert s + {k} == s;
    }
  }

  /** Saving a batch keeps the store valid, writes only sales, adds at most one row per
      order, and files every order before the first failing one. */
  lemma {:induction false} SaveOrdersEffect(db: Db, org: OrgId, orders: seq<RawShopeeOrder>)
    requires Valid(db)
    ensures var db' := SaveOrders(db, org, orders).0;
      && Valid(db')
      && db.sales.Keys <= db'.sales.Keys
      && |db'.sales.Keys| <= |db.sales.Keys| + |orders|
      && db'.taxProfiles == db.taxProfiles && db'.profiles == db.profiles
      && db'.logistics == db.logistics && db'.errorLog == db.errorLog
      && (SaveOrders(db, org, orders).1.None? ==>
            forall k :: 0 <= k < |orders| ==> (ExtractOrder(orders[k]).Success?
              && SaleKey(org, ExtractOrder(orders[k]).value.orderSn, SHOPEE) in db'.sales))
  {
    SaveOrdersFrame(db, org, orders);
    SaveOrdersFiles(db, org, orders);
  }

  /** The store-wide part of `SaveOrdersEffect`. */
  lemma {:induction false} SaveOrdersFrame(db: Db, org: OrgId, orders: seq<RawShopeeOrder>)
    requires Valid(db)
    ensures var db' := SaveOrders(db, org, orders).0;
      && Valid(db')
      && db.sales.Keys <= db'.sales.Keys
      && |db'.sales.Keys| <= |db.sales.Keys| + |orders|
      && db'.taxProfiles == db.taxProfiles && db'.profiles == db.profiles
      && db'.logistics == db.logistics && db'.errorLog == db.errorLog
    decreases |orders|
  {
    if orders != [] && SaveOrder(db, org, orders[0]).Success? {
      var db1 := SaveOrder(db, org, orders[0]).value;
      assert SaveOrders(db, org, orders) == SaveOrders(db1, org, orders[1..]);
      SaveOrderFrame(db, org, orders[0]);
      AddOneKey(db.sales.Keys, SaleKey(org, ExtractOrder(orders[0]).value.orderSn, SHOPEE));
      SaveOrdersFrame(db1, org, orders[1..]);
    }
  }

  /** Saving never touches the error log, whatever the store. */
  lemma {:induction false} SaveOrdersLog(db: Db, org: OrgId, orders: seq<RawShopeeOrder>)
    ensures SaveOrders(db, org, orders).0.errorLog == db.errorLog
    decreases |orders|
  {
    if orders != [] && SaveOrder(db, org, orders[0]).Success? {
      SaveOrdersLog(SaveOrder(db, org, orders[0]).value, org, orders[1..]);
    }
  }

  /** Saving one order adds its key to the sales and no other. */
  lemma SaveOrderKeys(db: Db, org: OrgId, raw: RawShopeeOrder)
    requires SaveOrder(db, org, raw).Success?
    ensures SaveOrder(db, org, raw).value.sales.Keys == db.sales.Keys + {SaleKey(org, ExtractOrder(raw).value.orderSn, SHOPEE)}
  {
    var o := ExtractOrder(raw).value;
    var key := SaleKey(org, o.orderSn, SHOPEE);
    var db1 := GetOrCreate(db, key, OrderDefaults(o, org, db.logistics)).0;
    assert db1.sales.Keys == db.sales.Keys + {key};
  }

  lemma {:induction false} SaveOrdersKeepsKeys(db: Db, org: OrgId, orders: seq<RawShopeeOrder>)
    ensures db.sales.Keys <= SaveOrders(db, org, orders).0.sales.Keys
    decreases |orders|
  {
    if orders != [] && SaveOrder(db, org, orders[0]).Success? {
      var db1 := SaveOrder(db, org, orders[0]).value;
      assert SaveOrders(db, org, orders) == SaveOrders(db1, org, orders[1..]);
      SaveOrderKeys(db, org, orders[0]);
      SaveOrdersKeepsKeys(db1, org, orders[1..]);
    }
  }

  /** The per-order part of `SaveOrdersEffect`: a batch without a failure files every order. */
  lemma {:induction false} SaveOrdersFiles(db: Db, org: OrgId, orders: seq<RawShopeeOrder>)
    ensures SaveOrders(db, org, orders).1.None? ==>
      forall k :: 0 <= k < |orders| ==> (ExtractOrder(orders[k]).Success?
        && SaleKey(org, ExtractOrder(orders[k]).value.orderSn, SHOPEE) in SaveOrders(db, org, orders).0.sales)
    decreases |orders|
  {
    if orders != [] && SaveOrder(db, org, orders[0]).Success? {
      var db1 := SaveOrder(db, org, orders[0]).value;
      var rest := SaveOrders(db1, org, orders[1..]);
      assert SaveOrders(db, org, orders) == rest;
      SaveOrderKeys(db, org, orders[0]);
      SaveOrdersKeepsKeys(db1, org, orders[1..]);
      SaveOrdersFiles(db1, org, orders[1..]);
      if rest.1.None? {
        forall k | 0 <= k < |orders|
          ensures ExtractOrder(orders[k]).Success?
            && SaleKey(org, ExtractOrder(orders[k]).value.orderSn, SHOPEE) in rest.0.sales
        {
          if k > 0 {
            assert orders[1..][k - 1] == orders[k];
          }
        }
      }
    }
  }

  /** A batch whose every order is already on file adds no row. */
  lemma {:induction false} KnownOrdersAddNoRows(db: Db, org: OrgId, orders: seq<RawShopeeOrder>)
    requires Valid(db)
    requires forall k :: 0 <= k < |orders| ==> (ExtractOrder(orders[k]).Success?
      && SaleKey(org, ExtractOrder(orders[k]).value.orderSn, SHOPEE) in db.sales)
    ensures SaveOrders(db, org, orders).0.sales.Keys == db.sales.Keys
    ensures SaveOrders(db, org, orders).0.nextSaleId == db.nextSaleId
    decreases |orders|
  {
    if orders != [] {
      SaveOrderEffect(db, org, orders[0]);
      var db1 := SaveOrder(db, org, orders[0]).value;
      assert forall k :: 0 <= k < |orders[1..]| ==> orders[1..][k] == orders[k + 1];
      KnownOrdersAddNoRows(db1, org, orders[1..]);
    }
  }

  /** `process_shopee_single_order(organization, order_data)` against the store. */
  method SaveShopeeOrder(store: Store, org: OrgId, raw: RawShopeeOrder) returns (r: Result<()>)
    modifies store
    ensures r.Failure? <==> SaveOrder(old(store.State()), org, raw).Failure?
    ensures r.Failure? ==> r.error == SaveOrder(old(store.State()), org, raw).error && store.State() == old(store.State())
    ensures r.Success? ==> store.State() == SaveOrder(old(store.State()), org, raw).value
  {
    var extracted := ExtractOrder(raw);
    if extracted.Failure? {
      return Failure(extracted.error);
    }
    var o := extracted.value;
    var key := SaleKey(org, o.orderSn, SHOPEE);
    var fixedCost, isFixedApplied := 0.0, false;
    var ruleKey := LogisticsKey(org, SHOPEE, o.carrier);
    if ruleKey in store.logistics {
      fixedCost := store.logistics[ruleKey].fixedCostValue;
      if fixedCost > 0.0 {
        isFixedApplied := true;
      }
    }
    var defaults := NewSaleTransaction(0, key, o.amount, o.createTime)
      .(shippingMethod := Some(o.carrier), shippingCostPlatform := o.fee,
        calculatedFixedCost := fixedCost, isFixedCostApplied := isFixedApplied);
    assert defaults == OrderDefaults(o, org, old(store.logistics));
    var _, _ := store.GetOrCreateSale(key, defaults);
    var _ := store.CalculateNetMargin(key);
    r := Success(());
  }

  /** The loop over a detail response's orders, stopping at the first that raises. */
  method SaveShopeeOrders(store: Store, org: OrgId, orders: seq<RawShopeeOrder>) returns (err: Option<string>)
    modifies store
    ensures (store.State(), err) == SaveOrders(old(store.State()), org, orders)
  {
    err := None;
    var i := 0;
    while i < |orders| && err.None?
      invariant 0 <= i <= |orders|
      invariant err.None? ==> SaveOrders(store.State(), org, orders[i..]) == SaveOrders(old(store.State()), org, orders)
      invariant err.Some? ==> (store.State(), err) == SaveOrders(old(store.State()), org, orders)
    {
      assert orders[i..][0] == orders[i] && orders[i..][1..] == orders[i + 1..];
      var r := SaveShopeeOrder(store, org, orders[i]);
      if r.Failure? {
        err := Some(r.error);
      }
      i := i + 1;
    }
  }
}
