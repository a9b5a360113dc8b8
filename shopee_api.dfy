/** The Shopee Open Platform client (finance_core/shopee_api.py): how it is built from the
    stored credentials, how it signs, and the query each call sends. The HTTP exchange itself
    is left to the callers, which receive the response as a parameter. */
module ShopeeApi {
  import opened Common
  import opened Text
  import opened Signing

  const SHOPEE_API_URL: string := "https://partner.shopeemobile.com/api/v2"
  const ORDER_LIST_PATH: string := "/order/get_order_list"
  const ORDER_DETAIL_PATH: string := "/order/get_order_detail"
  const DETAIL_OPTIONAL_FIELDS: string := "total_amount,shipping_carrier,actual_shipping_fee,create_time,item_list"
  const DEFAULT_PAGE_SIZE: int := 20

  /** A query parameter value; `PNone` is a Python `None`, which the HTTP library drops. */
  datatype Param = PInt(i: int) | PStr(s: string) | PNone

  type Params = map<string, Param>

  /** A GET request: the full URL and its query parameters. */
  datatype Request = Request(url: string, query: Params)

  /** The decoded reply of the token endpoints (`/auth/token/get`, `/auth/access_token/get`);
      None marks an absent key. */
  datatype ShopeeTokenReply = ShopeeTokenReply(
    error: Option<string>,
    message: Option<string>,
    accessToken: Option<string>,
    refreshToken: Option<string>,
    expireIn: Option<int>)

  /** The five parameters every signed call carries. */
  const COMMON_KEYS: set<string> := {"partner_id", "timestamp", "sign", "access_token", "shop_id"}

  function StrParam(v: Option<string>): Param {
    if v.Some? then PStr(v.value) else PNone
  }

  function IntParam(v: Option<int>): Param {
    if v.Some? then PInt(v.value) else PNone
  }

  /** A client over numeric partner and shop ids. */
  datatype ShopeeClient = ShopeeClient(
    partnerId: int,
    partnerKey: Option<string>,
    accessToken: Option<string>,
    shopId: Option<int>)
  {
    /** The signature over this client's base string for `path` at `timestamp`. */
    function Signature(path: string, timestamp: int, mac: Mac): string
      requires partnerKey.Some?
    {
      mac(partnerKey.value, BaseString(partnerId, path, timestamp, accessToken, shopId))
    }

    /** `_generate_signature(path, access_token, shop_id)` at time `now`; None when the partner
        key is missing (`None.encode` raises). */
    method GenerateSignature(path: string, token: Option<string>, shop: Option<int>, now: int, mac: Mac)
      returns (r: Option<(string, int)>)
      ensures r.None? <==> partnerKey.None?
      ensures r.Some? ==> r.value.1 == now
      ensures r.Some? ==> r.value.0 == mac(partnerKey.value, BaseString(partnerId, path, now, token, shop))
    {
      if partnerKey.None? {
        return None;
      }
      var timestamp := now;
      var base := IntToString(partnerId) + path + IntToString(timestamp);
      ghost var tokenPart := if Truthy(token) then token.value else "";
      if Truthy(token) {
        base := base + token.value;
      }
      assert base == IntToString(partnerId) + path + IntToString(timestamp) + tokenPart;
      ghost var withToken := base;
      if TruthyInt(shop) {
        base := base + IntToString(shop.value);
      }
      assert base == withToken + (if TruthyInt(shop) then IntToString(shop.value) else "");
      r := Some((mac(partnerKey.value, base), timestamp));
    }

    /** The common parameters of a call signed with `sign` at `timestamp`. */
    function CommonParams(sign: string, timestamp: int): (q: Params)
      ensures q.Keys == COMMON_KEYS
    {
      map["partner_id" := PInt(partnerId), "timestamp" := PInt(timestamp), "sign" := PStr(sign),
          "access_token" := StrParam(accessToken), "shop_id" := IntParam(shopId)]
    }

    /** The query a receiver recomputes the signature from: this client's partner, token and
        shop, and a signature that matches the timestamp sent with it. */
    predicate Verifies(path: string, query: Params, mac: Mac)
      requires partnerKey.Some?
    {
      && "timestamp" in query && query["timestamp"].PInt?
      && "partner_id" in query && query["partner_id"] == PInt(partnerId)
      && "access_token" in query && query["access_token"] == StrParam(accessToken)
      && "shop_id" in query && query["shop_id"] == IntParam(shopId)
      && "sign" in query && query["sign"] == PStr(Signature(path, query["timestamp"].i, mac))
    }

    /** `_make_request(path, params)` up to the HTTP call: the URL and the common parameters,
        updated with the call's own parameters. */
    method MakeRequest(path: string, params: Params, now: int, mac: Mac) returns (r: Option<Request>)
      ensures r.None? <==> partnerKey.None?
      ensures r.Some? ==> r.value.url == SHOPEE_API_URL + path
      ensures r.Some? ==> r.value.query.Keys == COMMON_KEYS + params.Keys
      ensures r.Some? ==> forall k :: k in params ==> r.value.query[k] == params[k]
      ensures r.Some? ==> forall k :: k in COMMON_KEYS && k !in params ==>
        r.value.query[k] == CommonParams(Signature(path, now, mac), now)[k]
      ensures r.Some? ==> r.value == Request(SHOPEE_API_URL + path, CommonParams(Signature(path, now, mac), now) + params)
    {
      var signed := GenerateSignature(path, accessToken, shopId, now, mac);
      if signed.None? {
        return None;
      }
      var (sign, timestamp) := signed.value;
      var query := CommonParams(sign, timestamp);
      query := query + params;
      r := Some(Request(SHOPEE_API_URL + path, query));
    }

    /** `get_order_list(time_from, time_to, page_size)`. */
    method GetOrderList(timeFrom: int, timeTo: int, pageSize: int, now: int, mac: Mac) returns (r: Option<Request>)
      ensures r.None? <==> partnerKey.None?
      ensures r.Some? ==> r.value == Request(SHOPEE_API_URL + ORDER_LIST_PATH,
        CommonParams(Signature(ORDER_LIST_PATH, now, mac), now) + OrderListParams(timeFrom, timeTo, pageSize))
    {
      r := MakeRequest(ORDER_LIST_PATH, OrderListParams(timeFrom, timeTo, pageSize), now, mac);
    }

    /** `get_order_detail(order_sn_list)`. */
    method GetOrderDetail(orderSns: seq<string>, now: int, mac: Mac) returns (r: Option<Request>)
      ensures r.None? <==> partnerKey.None?
      ensures r.Some? ==> r.value == Request(SHOPEE_API_URL + ORDER_DETAIL_PATH,
        CommonParams(Signature(ORDER_DETAIL_PATH, now, mac), now) + OrderDetailParams(orderSns))
    {
      r := MakeRequest(ORDER_DETAIL_PATH, OrderDetailParams(orderSns), now, mac);
    }
  }

  /** `ShopeeClient(partner_id, partner_key, access_token, shop_id)` over the stored text
      columns; None when `int(partner_id)` or `int(shop_id)` raises. A falsy shop id gives a
      client without a shop. */
  function NewShopeeClient(partnerId: Option<string>, partnerKey: Option<string>,
                           accessToken: Option<string>, shopId: Option<string>): (r: Option<ShopeeClient>)
    ensures r.Some? <==> ParseOptInt(partnerId).Some? && (Truthy(shopId) ==> ParseOptInt(shopId).Some?)
    ensures r.Some? ==> r.value.partnerId == ParseOptInt(partnerId).value
    ensures r.Some? ==> r.value.partnerKey == partnerKey && r.value.accessToken == accessToken
    ensures r.Some? ==> r.value.shopId == (if Truthy(shopId) then ParseOptInt(shopId) else None)
  {
    var pid := ParseOptInt(partnerId);
    var sid := if Truthy(shopId) then ParseOptInt(shopId) else None;
    if pid.None? || (Truthy(shopId) && sid.None?) then None
    else Some(ShopeeClient(pid.value, partnerKey, accessToken, sid))
  }

  function OrderListParams(timeFrom: int, timeTo: int, pageSize: int): (q: Params)
    ensures q.Keys == {"time_range_field", "time_from", "time_to", "page_size"}
    ensures q.Keys !! COMMON_KEYS
    ensures q["time_range_field"] == PStr("create_time")
    ensures q["time_from"] == PInt(timeFrom) && q["time_to"] == PInt(timeTo) && q["page_size"] == PInt(pageSize)
  {
    map["time_range_field" := PStr("create_time"), "time_from" := PInt(timeFrom),
        "time_to" := PInt(timeTo), "page_size" := PInt(pageSize)]
  }

  function OrderDetailParams(orderSns: seq<string>): (q: Params)
    ensures q.Keys == {"order_sn_list", "response_optional_fields"}
    ensures q.Keys !! COMMON_KEYS
    ensures q["order_sn_list"] == PStr(Join(orderSns, ','))
    ensures q["response_optional_fields"] == PStr(DETAIL_OPTIONAL_FIELDS)
  {
    map["order_sn_list" := PStr(Join(orderSns, ',')), "response_optional_fields" := PStr(DETAIL_OPTIONAL_FIELDS)]
  }

  /** A call whose own parameters leave the five common keys alone sends a query the
      receiver can verify; one that overrides the timestamp or the signature does not need to. */
  lemma UnoverriddenRequestVerifies(c: ShopeeClient, path: string, params: Params, now: int, mac: Mac)
    requires c.partnerKey.Some?
    requires params.Keys !! COMMON_KEYS
    ensures c.Verifies(path, c.CommonParams(c.Signature(path, now, mac), now) + params, mac)
    ensures (c.CommonParams(c.Signature(path, now, mac), now) + params)["timestamp"] == PInt(now)
  {
    var q := c.CommonParams(c.Signature(path, now, mac), now) + params;
    assert "timestamp" !in params && "sign" !in params && "partner_id" !in params;
    assert "access_token" !in params && "shop_id" !in params;
  }

  /** Both order calls send verifiable queries, the order list over the creation-time window. */
  lemma OrderCallsVerify(c: ShopeeClient, timeFrom: int, timeTo: int, pageSize: int,
                         orderSns: seq<string>, now: int, mac: Mac)
    requires c.partnerKey.Some?
    ensures c.Verifies(ORDER_LIST_PATH,
      c.CommonParams(c.Signature(ORDER_LIST_PATH, now, mac), now) + OrderListParams(timeFrom, timeTo, pageSize), mac)
    ensures c.Verifies(ORDER_DETAIL_PATH,
      c.CommonParams(c.Signature(ORDER_DETAIL_PATH, now, mac), now) + OrderDetailParams(orderSns), mac)
  {
    UnoverriddenRequestVerifies(c, ORDER_LIST_PATH, OrderListParams(timeFrom, timeTo, pageSize), now, mac);
    UnoverriddenRequestVerifies(c, ORDER_DETAIL_PATH, OrderDetailParams(orderSns), now, mac);
  }

  /** The receiver recovers the order numbers from `order_sn_list`, in order, when none of
      them contains a comma. */
  lemma OrderSnListRecoverable(orderSns: seq<string>)
    requires |orderSns| > 0
    requires forall k :: 0 <= k < |orderSns| ==> Free(orderSns[k], ',')
    ensures OrderDetailParams(orderSns)["order_sn_list"].PStr?
    ensures Split(OrderDetailParams(orderSns)["order_sn_list"].s, ',') == orderSns
  {
    SplitJoin(orderSns, ',');
  }

  /** A shop id stored as digits reaches the client as that number; a stored shop id that is
      not a number makes the client unbuildable rather than shop-less. */
  lemma StoredShopIdReadBack(partnerId: int, key: Option<string>, token: Option<string>, shop: int)
    ensures NewShopeeClient(Some(IntToString(partnerId)), key, token, Some(IntToString(shop)))
         == Some(ShopeeClient(partnerId, key, token, Some(shop)))
    ensures NewShopeeClient(Some(IntToString(partnerId)), key, token, Some("x")).None?
  {
    ParseIntRoundTrip(partnerId);
    ParseIntRoundTrip(shop);
    assert |IntToString(shop)| > 0;
    assert !IsDigit('x');
  }
}
