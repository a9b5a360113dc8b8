/** Shopee request signing (`sign_shopee_request` in finance_core/shopee_utils.py). The
    HMAC-SHA256 hex digest itself is a parameter: `mac(key, message)`. */
module Signing {
  import opened Common
  import opened Text

  /** HMAC-SHA256 hex digest of `message` under `key`. */
  type Mac = (string, string) -> string

  /** Python truthiness of an optional integer: present and non-zero. */
  predicate TruthyInt(v: Option<int>) {
    v.Some? && v.value != 0
  }

  /** The signed base string: partner id, path and timestamp, then the access token when it is
      truthy, then the shop id when it is truthy, with no delimiters. */
  function BaseString(partnerId: int, path: string, timestamp: int,
                      accessToken: Option<string>, shopId: Option<int>): string
  {
    IntToString(partnerId) + path + IntToString(timestamp)
      + (if Truthy(accessToken) then accessToken.value else "")
      + (if TruthyInt(shopId) then IntToString(shopId.value) else "")
  }

  /** `sign_shopee_request(path, partner_id, partner_key, shop_id, access_token)` at time `now`:
      the signature over the base string and the timestamp embedded in it. */
  method SignShopeeRequest(path: string, partnerId: int, partnerKey: string,
                           shopId: Option<int>, accessToken: Option<string>,
                           now: int, mac: Mac)
    returns (sign: string, timestamp: int)
    ensures timestamp == now
    ensures sign == mac(partnerKey, BaseString(partnerId, path, timestamp, accessToken, shopId))
  {
    timestamp := now;
    var base := IntToString(partnerId) + path + IntToString(timestamp);
    ghost var tokenPart := if Truthy(accessToken) then accessToken.value else "";
    if Truthy(accessToken) {
      base := base + accessToken.value;
    }
    assert base == IntToString(partnerId) + path + IntToString(timestamp) + tokenPart;
    ghost var withToken := base;
    if TruthyInt(shopId) {
      base := base + IntToString(shopId.value);
    }
    assert base == withToken + (if TruthyInt(shopId) then IntToString(shopId.value) else "");
    sign := mac(partnerKey, base);
  }

  /** With neither token nor shop, the base string is what the signing test recomputes. */
  lemma BaseStringWithoutOptionals(partnerId: int, path: string, timestamp: int)
    ensures BaseString(partnerId, path, timestamp, None, None)
         == IntToString(partnerId) + path + IntToString(timestamp)
  {
  }

  /** The access token is appended before the shop id, whatever order the caller passes them in. */
  lemma TokenBeforeShop(partnerId: int, path: string, timestamp: int, token: string, shopId: int)
    requires |token| > 0 && shopId != 0
    ensures var prefix := IntToString(partnerId) + path + IntToString(timestamp);
      && BaseString(partnerId, path, timestamp, Some(token), Some(shopId)) == prefix + token + IntToString(shopId)
      && BaseString(partnerId, path, timestamp, Some(token), Some(shopId))[|prefix|..|prefix| + |token|] == token
  {
    var prefix := IntToString(partnerId) + path + IntToString(timestamp);
    var b := prefix + token + IntToString(shopId);
    assert b[|prefix|..|prefix| + |token|] == token;
  }

  /** Falsy optionals (None, the empty token, shop id 0) leave no trace in the base string. */
  lemma FalsyOptionalsOmitted(partnerId: int, path: string, timestamp: int,
                              accessToken: Option<string>, shopId: Option<int>)
    requires !Truthy(accessToken) && !TruthyInt(shopId)
    ensures BaseString(partnerId, path, timestamp, accessToken, shopId)
         == BaseString(partnerId, path, timestamp, None, None)
  {
  }

  lemma {:induction false} PrefixCancel(a: string, b: string, c: string)
    requires a + b == a + c
    ensures b == c
  {
    assert b == (a + b)[|a|..];
    assert c == (a + c)[|a|..];
  }

  /** For the token-less requests (authorization, token exchange and refresh), distinct
      timestamps give distinct signed messages: a signature cannot be replayed at another time. */
  lemma DistinctTimestampsDistinctMessages(partnerId: int, path: string, t1: int, t2: int)
    requires t1 != t2
    ensures BaseString(partnerId, path, t1, None, None) != BaseString(partnerId, path, t2, None, None)
  {
    var prefix := IntToString(partnerId) + path;
    if BaseString(partnerId, path, t1, None, None) == BaseString(partnerId, path, t2, None, None) {
      assert prefix + IntToString(t1) + "" + "" == prefix + IntToString(t1);
      assert prefix + IntToString(t2) + "" + "" == prefix + IntToString(t2);
      PrefixCancel(prefix, IntToString(t1), IntToString(t2));
      IntToStringInjective(t1, t2);
    }
  }

  /** Without delimiters the base string does not determine its parts: a timestamp followed
      by a token that starts with a digit reads like a longer timestamp. */
  lemma BaseStringAmbiguous()
    ensures BaseString(1, "/p", 12, Some("3a"), None) == BaseString(1, "/p", 123, Some("a"), None)
  {
    assert NatToString(1) == "1";
    assert NatToString(12) == NatToString(1) + [DigitChar(2)] == "12";
    assert NatToString(123) == NatToString(12) + [DigitChar(3)] == "123";
  }
}
