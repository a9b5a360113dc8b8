/** The older bulk Shopee fetch of finance_core/shopee_utils.py
    (`fetch_and_process_shopee_orders()` and `process_shopee_order_details`): every profile
    with a partner id in turn, failures only printed, never written to the error log. */
module ShopeeBulk {
  import opened Common
  import opened Text
  import opened Models
  import opened Ledger
  import opened ShopeeOrders
  import opened ShopeeFetch

  /** The queryset filter `shopee_partner_id__isnull=False` (an empty id passes). */
  predicate BulkEligible(p: IntegrationProfile) {
    p.shopeePartnerId.Some?
  }

  /** The partner id, shop id and key are converted and used for signing outside any `try`:
      this is when they raise. */
  predicate SigningRaises(p: IntegrationProfile) {
    ParseOptInt(p.shopeePartnerId).None? || ParseOptInt(p.shopeeShopId).None? || p.shopeePartnerKey.None?
  }

  /** `process_shopee_order_details(profile, order_sn_list)`: None when an exception escapes
      (from the conversions and signing before its `try`); a failed detail call leaves the
      store as it was; otherwise the orders are saved up to the first that raises. */
  function ProcessOrderDetails(db: Db, p: IntegrationProfile, detail: Remote<seq<RawShopeeOrder>>): Option<Db> {
    if SigningRaises(p) then None
    else match detail
      case Err(_) => Some(db)
      case Ok(orders) => Some(SaveOrders(db, p.organization, orders).0)
  }

  /** One iteration of the bulk loop, None when an exception escapes it. */
  function BulkFetchProfile(db: Db, p: IntegrationProfile, r: ShopeeReplies): Option<Db> {
    if !HasShopeeCredentials(p) then Some(db)
    else if SigningRaises(p) then None
    else match r.list
      case Err(_) => Some(db)
      case Ok(env) =>
        if Truthy(env.error) then Some(db)
        else match OrderSns(env.orderList)
          case Failure(_) => Some(db)
          case Success(sns) => if sns == [] then Some(db) else ProcessOrderDetails(db, p, r.detail)
  }

  /** The loop over the listed profiles as read at its start; the flag reports an exception
      that ended it (the profiles after it are not visited). */
  function BulkFetchAll(db: Db, snap: map<OrgId, IntegrationProfile>, order: seq<OrgId>,
                        replies: OrgId -> ShopeeReplies): (Db, bool)
    requires forall k :: 0 <= k < |order| ==> order[k] in snap
    decreases |order|
  {
    if order == [] then (db, false)
    else
      var p := snap[order[0]];
      if !BulkEligible(p) then BulkFetchAll(db, snap, order[1..], replies)
      else match BulkFetchProfile(db, p, replies(order[0]))
        case None => (db, true)
        case Some(db1) => BulkFetchAll(db1, snap, order[1..], replies)
  }

  /** Skipped profiles, failed calls, error envelopes and empty lists leave the store alone. */
  lemma BulkQuietCases(db: Db, p: IntegrationProfile, r: ShopeeReplies)
    ensures !HasShopeeCredentials(p) ==> BulkFetchProfile(db, p, r) == Some(db)
    ensures HasShopeeCredentials(p) && !SigningRaises(p) && (r.list.Err? || Truthy(r.list.payload.error))
      ==> BulkFetchProfile(db, p, r) == Some(db)
    ensures HasShopeeCredentials(p) && !SigningRaises(p) && r.list.Ok? && !Truthy(r.list.payload.error)
             && r.list.payload.orderList == []
      ==> BulkFetchProfile(db, p, r) == Some(db)
  {
  }

  /** The bulk loop keeps the store valid and writes only sales: no profile, rule, tax
      profile or error log entry. */
  lemma {:induction false} BulkFetchAllEffect(db: Db, snap: map<OrgId, IntegrationProfile>, order: seq<OrgId>,
                                              replies: OrgId -> ShopeeReplies)
    requires forall k :: 0 <= k < |order| ==> order[k] in snap
    requires Valid(db)
    ensures var db' := BulkFetchAll(db, snap, order, replies).0;
      && Valid(db')
      && db'.errorLog == db.errorLog && db'.profiles == db.profiles
      && db'.taxProfiles == db.taxProfiles && db'.logistics == db.logistics
      && db.sales.Keys <= db'.sales.Keys
    decreases |order|
  {
    if order != [] {
      var p := snap[order[0]];
      var r := replies(order[0]);
      assert forall k :: 0 <= k < |order[1..]| ==> order[1..][k] == order[k + 1];
      if BulkEligible(p) && BulkFetchProfile(db, p, r).Some? {
        var db1 := BulkFetchProfile(db, p, r).value;
        if HasShopeeCredentials(p) && r.list.Ok? && OrderSns(r.list.payload.orderList).Success?
           && r.detail.Ok? && db1 != db {
          SaveOrdersEffect(db, p.organization, r.detail.payload);
        }
        BulkFetchAllEffect(db1, snap, order[1..], replies);
      } else if !BulkEligible(p) {
        BulkFetchAllEffect(db, snap, order[1..], replies);
      }
    }
  }

  /** A loop that ends in an exception met a listed profile, with credentials, whose ids do
      not convert or whose key is missing. */
  lemma {:induction false} BulkCrashCause(db: Db, snap: map<OrgId, IntegrationProfile>, order: seq<OrgId>,
                                          replies: OrgId -> ShopeeReplies)
    requires forall k :: 0 <= k < |order| ==> order[k] in snap
    requires BulkFetchAll(db, snap, order, replies).1
    ensures exists k :: (0 <= k < |order| && BulkEligible(snap[order[k]])
      && HasShopeeCredentials(snap[order[k]]) && SigningRaises(snap[order[k]]))
    decreases |order|
  {
    var p := snap[order[0]];
    var r := replies(order[0]);
    if BulkEligible(p) && BulkFetchProfile(db, p, r).None? {
      assert HasShopeeCredentials(p) && SigningRaises(p);
    } else {
      var db1 := if BulkEligible(p) then BulkFetchProfile(db, p, r).value else db;
      assert forall k :: 0 <= k < |order[1..]| ==> order[1..][k] == order[k + 1];
      BulkCrashCause(db1, snap, order[1..], replies);
      var k :| 0 <= k < |order[1..]| && BulkEligible(snap[order[1..][k]])
        && HasShopeeCredentials(snap[order[1..][k]]) && SigningRaises(snap[order[1..][k]]);
      assert order[k + 1] == order[1..][k];
    }
  }

  /** `process_shopee_order_details(profile, order_sn_list)` against the store. */
  method ProcessShopeeOrderDetails(store: Store, p: IntegrationProfile, detail: Remote<seq<RawShopeeOrder>>)
    returns (crashed: bool)
    modifies store
    ensures crashed <==> ProcessOrderDetails(old(store.State()), p, detail).None?
    ensures crashed ==> store.State() == old(store.State())
    ensures !crashed ==> store.State() == ProcessOrderDetails(old(store.State()), p, detail).value
  {
    crashed := false;
    var partnerId := ParseOptInt(p.shopeePartnerId);
    var shopId := ParseOptInt(p.shopeeShopId);
    if partnerId.None? || shopId.None? || p.shopeePartnerKey.None? {
      crashed := true;
      return;
    }
    if detail.Err? {
      return;
    }
    var _ := SaveShopeeOrders(store, p.organization, detail.payload);
  }

  /** `fetch_and_process_shopee_orders()` of finance_core/shopee_utils.py; `order` lists every
      stored profile once, in queryset order. */
  method BulkFetchShopeeOrders(store: Store, order: seq<OrgId>, replies: OrgId -> ShopeeReplies)
    returns (crashed: bool)
    requires forall k :: 0 <= k < |order| ==> order[k] in store.profiles
    modifies store
    ensures (store.State(), crashed) == BulkFetchAll(old(store.State()), old(store.profiles), order, replies)
  {
    var snap := store.profiles;
    crashed := false;
    var i := 0;
    while i < |order|
      invariant 0 <= i <= |order|
      invariant forall k :: 0 <= k < |order| ==> order[k] in snap
      invariant !crashed
      invariant BulkFetchAll(store.State(), snap, order[i..], replies) == BulkFetchAll(old(store.State()), snap, order, replies)
    {
      assert order[i..][0] == order[i] && order[i..][1..] == order[i + 1..];
      var p := snap[order[i]];
      var r := replies(order[i]);
      if p.shopeePartnerId.Some? && HasShopeeCredentials(p) {
        if SigningRaises(p) {
          crashed := true;
          return;
        }
        if r.list.Ok? && !Truthy(r.list.payload.error) {
          var sns := OrderSns(r.list.payload.orderList);
          if sns.Success? && sns.value != [] {
            crashed := ProcessShopeeOrderDetails(store, p, r.detail);
            if crashed {
              return;
            }
          }
        }
      }
      i := i + 1;
    }
    assert order[|order|..] == [];
  }
}
