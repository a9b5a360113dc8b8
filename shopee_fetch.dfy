/** `fetch_and_process_shopee_orders(tenant_profile)` in finance_core/utils.py: one tenant's
    Shopee orders of the last fifteen days, fetched through the client and saved, with
    every failure inside the fetch written to the integration error log. */
module ShopeeFetch {
  import opened Common
  import opened Models
  import opened Ledger
  import opened Signing
  import opened ShopeeApi
  import opened ShopeeOrders

  const TASK_FETCH: string := "fetch_and_process_shopee_orders"
  const API_ERROR_PREFIX: string := "Shopee API Error: "
  const PROCESS_ERROR_PREFIX: string := "Error processing Shopee orders: "
  /** The text of the `AttributeError` signing with a missing partner key raises. */
  const NONE_KEY_MESSAGE: string := "'NoneType' object has no attribute 'encode'"
  const WINDOW: int := 15 * 24 * 3600

  /** The order list response: the `error` and `message` fields and the entries of
      `response.order_list` (empty when absent), each entry's `order_sn` if it has one. */
  datatype OrderListEnvelope = OrderListEnvelope(
    error: Option<string>,
    message: Option<string>,
    orderList: seq<Option<string>>)

  /** The remote side of one fetch: the order list call and the detail call (the detail
      response reduced to `response.order_list`). */
  datatype ShopeeReplies = ShopeeReplies(list: Remote<OrderListEnvelope>, detail: Remote<seq<RawShopeeOrder>>)

  function ShopeeLog(org: OrgId, message: string, now: int): IntegrationErrorLog {
    IntegrationErrorLog(org, SHOPEE, TASK_FETCH, message, now)
  }

  /** The serials of the order list, or the `KeyError` an entry without `order_sn` raises. */
  function OrderSns(entries: seq<Option<string>>): (r: Result<seq<string>>)
    ensures r.Success? <==> forall k :: 0 <= k < |entries| ==> entries[k].Some?
    ensures r.Success? ==> |r.value| == |entries| && forall k :: 0 <= k < |entries| ==> r.value[k] == entries[k].value
    ensures r.Failure? ==> r.error == KeyErrorMessage("order_sn")
    decreases |entries|
  {
    if entries == [] then Success([])
    else if entries[0].None? then Failure(KeyErrorMessage("order_sn"))
    else match OrderSns(entries[1..])
      case Failure(e) => Failure(e)
      case Success(rest) => Success([entries[0].value] + rest)
  }

  /** Shopee credentials are present: a truthy access token and shop id. */
  predicate HasShopeeCredentials(p: IntegrationProfile) {
    Truthy(p.shopeeAccessToken) && Truthy(p.shopeeShopId)
  }

  /** The client the function builds (outside its `try`). */
  function ClientOf(p: IntegrationProfile): Option<ShopeeClient> {
    NewShopeeClient(p.shopeePartnerId, p.shopeePartnerKey, p.shopeeAccessToken, p.shopeeShopId)
  }

  /** Where one fetch ends, decided by the profile and the replies alone: without effect, with
      one log message, in the save of the detail orders, or in an exception escaping it (a
      partner or shop id that `int()` rejects, raised while building the client). */
  datatype FetchPath = Skipped | Logged(message: string) | Saving(orders: seq<RawShopeeOrder>) | Escaped

  function FetchPathOf(p: IntegrationProfile, r: ShopeeReplies): FetchPath {
    if !HasShopeeCredentials(p) then Skipped
    else if ClientOf(p).None? then Escaped
    else ClientPath(ClientOf(p).value, r)
  }

  /** Where the `try` block ends once the client is built; every exception inside it is
      caught and logged. */
  function ClientPath(client: ShopeeClient, r: ShopeeReplies): (path: FetchPath)
    ensures !path.Escaped?
  {
    if client.partnerKey.None? then Logged(PROCESS_ERROR_PREFIX + NONE_KEY_MESSAGE)
    else match r.list
      case Err(m) => Logged(PROCESS_ERROR_PREFIX + m)
      case Ok(env) =>
        if Truthy(env.error) then Logged(API_ERROR_PREFIX + OptText(env.message))
        else match OrderSns(env.orderList)
          case Failure(e) => Logged(PROCESS_ERROR_PREFIX + e)
          case Success(sns) =>
            if sns == [] then Skipped
            else match r.detail
              case Err(m) => Logged(PROCESS_ERROR_PREFIX + m)
              case Ok(orders) => Saving(orders)
  }

  /** The store after a fetch that ends on `path`. A failure while saving is logged after
      the orders saved before it. */
  function ApplyPath(db: Db, org: OrgId, path: FetchPath, now: int): Db
    requires !path.Escaped?
  {
    match path
    case Skipped => db
    case Logged(m) => AppendLog(db, ShopeeLog(org, m, now))
    case Saving(orders) =>
      var (db1, err) := SaveOrders(db, org, orders);
      if err.Some? then AppendLog(db1, ShopeeLog(org, PROCESS_ERROR_PREFIX + err.value, now)) else db1
  }

  /** The store after the fetch, or None when an exception escapes it. */
  function FetchShopee(db: Db, p: IntegrationProfile, now: int, r: ShopeeReplies): Option<Db> {
    var path := FetchPathOf(p, r);
    if path.Escaped? then None else Some(ApplyPath(db, p.organization, path, now))
  }

  /** Without credentials the fetch does nothing. */
  lemma NoCredentialsNoEffect(db: Db, p: IntegrationProfile, now: int, r: ShopeeReplies)
    requires !HasShopeeCredentials(p)
    ensures FetchShopee(db, p, now, r) == Some(db)
  {
  }

  /** An error envelope gives exactly one SHOPEE entry carrying the API message, and no sale. */
  lemma ErrorEnvelopeLogsOnce(db: Db, p: IntegrationProfile, now: int, r: ShopeeReplies)
    requires HasShopeeCredentials(p) && ClientOf(p).Some? && ClientOf(p).value.partnerKey.Some?
    requires r.list.Ok? && Truthy(r.list.payload.error)
    ensures FetchShopee(db, p, now, r)
         == Some(db.(errorLog := db.errorLog + [IntegrationErrorLog(p.organization, SHOPEE, TASK_FETCH,
                                                API_ERROR_PREFIX + OptText(r.list.payload.message), now)]))
  {
  }

  /** An empty order list ends the fetch before the detail call: its reply is never read. */
  lemma EmptyListNoDetailCall(db: Db, p: IntegrationProfile, now: int, list: Remote<OrderListEnvelope>,
                              d1: Remote<seq<RawShopeeOrder>>, d2: Remote<seq<RawShopeeOrder>>)
    requires list.Ok? && !Truthy(list.payload.error) && list.payload.orderList == []
    ensures FetchShopee(db, p, now, ShopeeReplies(list, d1)) == FetchShopee(db, p, now, ShopeeReplies(list, d2))
    ensures HasShopeeCredentials(p) && ClientOf(p).Some? && ClientOf(p).value.partnerKey.Some? ==>
      FetchShopee(db, p, now, ShopeeReplies(list, d1)) == Some(db)
  {
  }

  /** `after` extends `before`'s log by at most one entry, of this org, platform and task. */
  predicate LogGrowsByAtMostOne(before: seq<IntegrationErrorLog>, after: seq<IntegrationErrorLog>,
                                org: OrgId, platform: string, task: string)
  {
    && |before| <= |after| <= |before| + 1
    && after[..|before|] == before
    && (|after| > |before| ==>
          (after[|before|].organization == org && after[|before|].platform == platform && after[|before|].taskName == task))
  }

  lemma AppendShopeeLog(db: Db, org: OrgId, message: string, now: int)
    requires Valid(db)
    ensures Valid(AppendLog(db, ShopeeLog(org, message, now)))
    ensures LogGrowsByAtMostOne(db.errorLog, AppendLog(db, ShopeeLog(org, message, now)).errorLog, org, SHOPEE, TASK_FETCH)
  {
    var after := AppendLog(db, ShopeeLog(org, message, now)).errorLog;
    assert after[..|db.errorLog|] == db.errorLog;
  }

  /** A fetch that completes keeps the store valid, leaves profiles, tax profiles and rules
      alone, and appends at most one entry to the log, for this tenant. */
  lemma FetchShopeeEffect(db: Db, p: IntegrationProfile, now: int, r: ShopeeReplies)
    requires Valid(db) && FetchShopee(db, p, now, r).Some?
    ensures var db' := FetchShopee(db, p, now, r).value;
      && Valid(db')
      && db'.profiles == db.profiles && db'.taxProfiles == db.taxProfiles && db'.logistics == db.logistics
      && db.sales.Keys <= db'.sales.Keys
      && LogGrowsByAtMostOne(db.errorLog, db'.errorLog, p.organization, SHOPEE, TASK_FETCH)
  {
    FetchShopeeKeepsStore(db, p, now, r);
    FetchShopeeLog(db, p, now, r);
  }

  /** The tables part of `FetchShopeeEffect`. */
  lemma FetchShopeeKeepsStore(db: Db, p: IntegrationProfile, now: int, r: ShopeeReplies)
    requires Valid(db) && FetchShopee(db, p, now, r).Some?
    ensures var db' := FetchShopee(db, p, now, r).value;
      && Valid(db')
      && db'.profiles == db.profiles && db'.taxProfiles == db.taxProfiles && db'.logistics == db.logistics
      && db.sales.Keys <= db'.sales.Keys
  {
    ApplyPathKeepsStore(db, p.organization, FetchPathOf(p, r), now);
  }

  lemma ApplyPathKeepsStore(db: Db, org: OrgId, path: FetchPath, now: int)
    requires Valid(db) && !path.Escaped?
    ensures var db' := ApplyPath(db, org, path, now);
      && Valid(db')
      && db'.profiles == db.profiles && db'.taxProfiles == db.taxProfiles && db'.logistics == db.logistics
      && db.sales.Keys <= db'.sales.Keys
  {
    if path.Saving? {
      SaveOrdersFrame(db, org, path.orders);
    }
  }

  /** The log part of `FetchShopeeEffect`. */
  lemma FetchShopeeLog(db: Db, p: IntegrationProfile, now: int, r: ShopeeReplies)
    requires FetchShopee(db, p, now, r).Some?
    ensures LogGrowsByAtMostOne(db.errorLog, FetchShopee(db, p, now, r).value.errorLog, p.organization, SHOPEE, TASK_FETCH)
  {
    ApplyPathLog(db, p.organization, FetchPathOf(p, r), now);
  }

  lemma ApplyPathLog(db: Db, org: OrgId, path: FetchPath, now: int)
    requires !path.Escaped?
    ensures LogGrowsByAtMostOne(db.errorLog, ApplyPath(db, org, path, now).errorLog, org, SHOPEE, TASK_FETCH)
  {
    var after := ApplyPath(db, org, path, now).errorLog;
    if path.Saving? {
      SaveOrdersLog(db, org, path.orders);
    }
    assert after[..|db.errorLog|] == db.errorLog;
  }

  /** A successful detail call with well-formed orders files every one of them. */
  lemma CompleteFetchFilesEveryOrder(db: Db, p: IntegrationProfile, now: int, r: ShopeeReplies)
    requires Valid(db) && HasShopeeCredentials(p) && ClientOf(p).Some? && ClientOf(p).value.partnerKey.Some?
    requires r.list.Ok? && !Truthy(r.list.payload.error) && r.list.payload.orderList != []
    requires forall k :: 0 <= k < |r.list.payload.orderList| ==> r.list.payload.orderList[k].Some?
    requires r.detail.Ok? && forall k :: 0 <= k < |r.detail.payload| ==> ExtractOrder(r.detail.payload[k]).Success?
    ensures FetchShopee(db, p, now, r).Some?
    ensures FetchShopee(db, p, now, r).value.errorLog == db.errorLog
    ensures forall k :: 0 <= k < |r.detail.payload| ==>
      SaleKey(p.organization, ExtractOrder(r.detail.payload[k]).value.orderSn, SHOPEE) in FetchShopee(db, p, now, r).value.sales
  {
    CompleteFetchSaves(p, r);
    SaveOrdersCompletes(db, p.organization, r.detail.payload);
    SaveOrdersLog(db, p.organization, r.detail.payload);
    SaveOrdersFiles(db, p.organization, r.detail.payload);
  }

  /** Under the same replies the fetch ends in the save of the detail orders. */
  lemma CompleteFetchSaves(p: IntegrationProfile, r: ShopeeReplies)
    requires HasShopeeCredentials(p) && ClientOf(p).Some? && ClientOf(p).value.partnerKey.Some?
    requires r.list.Ok? && !Truthy(r.list.payload.error) && r.list.payload.orderList != []
    requires forall k :: 0 <= k < |r.list.payload.orderList| ==> r.list.payload.orderList[k].Some?
    requires r.detail.Ok?
    ensures FetchPathOf(p, r) == Saving(r.detail.payload)
  {
  }

  lemma {:induction false} SaveOrdersCompletes(db: Db, org: OrgId, orders: seq<RawShopeeOrder>)
    requires forall k :: 0 <= k < |orders| ==> ExtractOrder(orders[k]).Success?
    ensures SaveOrders(db, org, orders).1.None?
    decreases |orders|
  {
    if orders != [] {
      assert forall k :: 0 <= k < |orders[1..]| ==> orders[1..][k] == orders[k + 1];
      SaveOrdersCompletes(SaveOrder(db, org, orders[0]).value, org, orders[1..]);
    }
  }

  /** `fetch_and_process_shopee_orders(tenant_profile)` at time `now`. `crashed` reports an
      exception escaping the function; `calls` are the requests it sent, in order. */
  method FetchAndProcessShopeeOrders(store: Store, p: IntegrationProfile, now: int, r: ShopeeReplies, mac: Mac)
    returns (crashed: bool, calls: seq<Request>)
    modifies store
    ensures crashed <==> FetchShopee(old(store.State()), p, now, r).None?
    ensures crashed ==> store.State() == old(store.State()) && calls == []
    ensures !crashed ==> store.State() == FetchShopee(old(store.State()), p, now, r).value
    ensures |calls| <= 2
    ensures |calls| > 0 <==> HasShopeeCredentials(p) && ClientOf(p).Some? && ClientOf(p).value.partnerKey.Some?
    ensures |calls| > 0 ==> calls[0] == Request(SHOPEE_API_URL + ORDER_LIST_PATH,
      ClientOf(p).value.CommonParams(ClientOf(p).value.Signature(ORDER_LIST_PATH, now, mac), now)
        + OrderListParams(now - WINDOW, now, DEFAULT_PAGE_SIZE))
    ensures |calls| == 2 <==> (HasShopeeCredentials(p) && ClientOf(p).Some? && ClientOf(p).value.partnerKey.Some?
      && r.list.Ok? && !Truthy(r.list.payload.error)
      && OrderSns(r.list.payload.orderList).Success? && OrderSns(r.list.payload.orderList).value != [])
    ensures |calls| == 2 ==> calls[1] == Request(SHOPEE_API_URL + ORDER_DETAIL_PATH,
      ClientOf(p).value.CommonParams(ClientOf(p).value.Signature(ORDER_DETAIL_PATH, now, mac), now)
        + OrderDetailParams(OrderSns(r.list.payload.orderList).value))
  {
    calls := [];
    crashed := false;
    if !Truthy(p.shopeeAccessToken) || !Truthy(p.shopeeShopId) {
      return;
    }
    var built := NewShopeeClient(p.shopeePartnerId, p.shopeePartnerKey, p.shopeeAccessToken, p.shopeeShopId);
    if built.None? {
      crashed := true;
      return;
    }
    calls := FetchWithClient(store, p.organization, built.value, now, r, mac);
  }

  /** The `try` block of `fetch_and_process_shopee_orders` with the client built: the list
      call, the detail call for a non-empty list and the save, any exception logged. */
  method FetchWithClient(store: Store, org: OrgId, client: ShopeeClient, now: int, r: ShopeeReplies, mac: Mac)
    returns (calls: seq<Request>)
    modifies store
    ensures ClientPath(client, r).Skipped? ==> store.State() == old(store.State())
    ensures ClientPath(client, r).Logged? ==>
      store.State() == AppendLog(old(store.State()), ShopeeLog(org, ClientPath(client, r).message, now))
    ensures ClientPath(client, r).Saving? ==> store.State() == ApplyPath(old(store.State()), org, ClientPath(client, r), now)
    ensures |calls| <= 2
    ensures |calls| > 0 <==> client.partnerKey.Some?
    ensures |calls| > 0 ==> calls[0] == Request(SHOPEE_API_URL + ORDER_LIST_PATH,
      client.CommonParams(client.Signature(ORDER_LIST_PATH, now, mac), now) + OrderListParams(now - WINDOW, now, DEFAULT_PAGE_SIZE))
    ensures |calls| == 2 <==> (client.partnerKey.Some? && r.list.Ok? && !Truthy(r.list.payload.error)
      && OrderSns(r.list.payload.orderList).Success? && OrderSns(r.list.payload.orderList).value != [])
    ensures |calls| == 2 ==> calls[1] == Request(SHOPEE_API_URL + ORDER_DETAIL_PATH,
      client.CommonParams(client.Signature(ORDER_DETAIL_PATH, now, mac), now) + OrderDetailParams(OrderSns(r.list.payload.orderList).value))
  {
    calls := [];
    var timeTo := now;
    var timeFrom := timeTo - WINDOW;
    var listRequest := client.GetOrderList(timeFrom, timeTo, DEFAULT_PAGE_SIZE, now, mac);
    if listRequest.None? {
      store.LogError(ShopeeLog(org, PROCESS_ERROR_PREFIX + NONE_KEY_MESSAGE, now));
      return;
    }
    calls := calls + [listRequest.value];
    if r.list.Err? {
      store.LogError(ShopeeLog(org, PROCESS_ERROR_PREFIX + r.list.message, now));
      return;
    }
    var resp := r.list.payload;
    if Truthy(resp.error) {
      store.LogError(ShopeeLog(org, API_ERROR_PREFIX + OptText(resp.message), now));
      return;
    }
    var sns := OrderSns(resp.orderList);
    if sns.Failure? {
      store.LogError(ShopeeLog(org, PROCESS_ERROR_PREFIX + sns.error, now));
      return;
    }
    if sns.value == [] {
      return;
    }
    var detailRequest := client.GetOrderDetail(sns.value, now, mac);
    calls := calls + [detailRequest.value];
    if r.detail.Err? {
      store.LogError(ShopeeLog(org, PROCESS_ERROR_PREFIX + r.detail.message, now));
      return;
    }
    var err := SaveShopeeOrders(store, org, r.detail.payload);
    if err.Some? {
      store.LogError(ShopeeLog(org, PROCESS_ERROR_PREFIX + err.value, now));
    }
  }
}
