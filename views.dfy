/** The OAuth views of finance_core/views.py: the start views that send the seller to the
    marketplace and the callbacks that store the tokens it hands back. */
module Views {
  import opened Common
  import opened Text
  import opened Models
  import opened Ledger
  import opened Signing
  import opened ShopeeApi
  import opened MlSync

  const ML_AUTH_URL: string := "https://auth.mercadolivre.com.br/authorization"
  const ML_REDIRECT_URI: string := "http://localhost:8000/api/v1/ml/auth/callback/"
  const ML_DEFAULT_EXPIRES_IN: int := 21600
  const SHOPEE_AUTH_PATH: string := "/shop/auth_partner"
  const SHOPEE_TOKEN_PATH: string := "/auth/token/get"
  const SHOPEE_REDIRECT_URL: string := "http://localhost:8000/api/v1/integrations/shopee/callback/"
  const SHOPEE_API_ERROR_PREFIX: string := "Shopee API Error: "

  /** What a view answers: a redirect, a JSON reply with its status, or an exception the
      view does not catch (the framework's error page). */
  datatype ViewResponse = Redirect(url: string) | Reply(status: int, message: string) | Unhandled

  /** `IntegrationProfile.objects.get(organization_id=<text>)`: a text that is no integer
      raises, an unknown organization is `DoesNotExist`. */
  datatype ProfileLookup = BadId | NotFound | Found(profile: IntegrationProfile)

  function LookUp(profiles: map<OrgId, IntegrationProfile>, id: string): (r: ProfileLookup)
    ensures r.BadId? <==> ParseInt(id).None?
    ensures r.Found? <==> ParseInt(id).Some? && ParseInt(id).value in profiles
    ensures r.Found? ==> r.profile == profiles[ParseInt(id).value]
  {
    match ParseInt(id)
    case None => BadId
    case Some(o) => if o in profiles then Found(profiles[o]) else NotFound
  }

  /* ---------------------------------------------------------------- Mercado Livre */

  function MlAuthUrl(clientId: string, state: string): string {
    ML_AUTH_URL + "?response_type=code&client_id=" + clientId + "&redirect_uri=" + ML_REDIRECT_URI + "&state=" + state
  }

  /** `MLAuthStartView.get`: the organization id itself is the OAuth `state`. */
  function MlAuthStart(profiles: map<OrgId, IntegrationProfile>, orgId: Option<string>): ViewResponse {
    if !Truthy(orgId) then Reply(400, "organization_id is required")
    else match LookUp(profiles, orgId.value)
      case BadId => Unhandled
      case NotFound => Reply(404, "IntegrationProfile not found for this organization. Please create one with Client ID/Secret first.")
      case Found(p) => Redirect(MlAuthUrl(p.mlClientId, orgId.value))
  }

  /** The start view answers 400 exactly without an id, 404 exactly for an unknown
      organization, and otherwise redirects with the profile's client id and the id as state. */
  lemma MlAuthStartOutcomes(profiles: map<OrgId, IntegrationProfile>, orgId: Option<string>)
    ensures MlAuthStart(profiles, orgId).Reply? && MlAuthStart(profiles, orgId).status == 400 <==> !Truthy(orgId)
    ensures MlAuthStart(profiles, orgId).Reply? && MlAuthStart(profiles, orgId).status == 404
      <==> Truthy(orgId) && LookUp(profiles, orgId.value).NotFound?
    ensures MlAuthStart(profiles, orgId).Redirect? <==> Truthy(orgId) && LookUp(profiles, orgId.value).Found?
    ensures MlAuthStart(profiles, orgId).Redirect? ==>
      MlAuthStart(profiles, orgId).url == MlAuthUrl(LookUp(profiles, orgId.value).profile.mlClientId, orgId.value)
  {
  }

  /** `MLAuthCallbackView.get`: the response and the store it leaves. */
  function MlCallback(db: Db, code: Option<string>, state: Option<string>, now: int,
                      reply: Remote<MlTokenPayload>): (ViewResponse, Db)
  {
    if !Truthy(code) || !Truthy(state) then (Reply(400, "Missing code or state"), db)
    else match LookUp(db.profiles, state.value)
      case BadId => (Unhandled, db)
      case NotFound => (Reply(404, "Organization not found"), db)
      case Found(p) =>
        match reply
        case Err(m) => (Reply(500, m), db)
        case Ok(d) =>
          if d.accessToken.None? then (Reply(500, KeyErrorMessage("access_token")), db)
          else if d.refreshToken.None? then (Reply(500, KeyErrorMessage("refresh_token")), db)
          else
            var q := p.(mlAccessToken := d.accessToken, mlRefreshToken := d.refreshToken,
                        mlTokenExpiry := Some(now + d.expiresIn.GetOr(ML_DEFAULT_EXPIRES_IN)));
            (Reply(200, "Mercado Livre authentication successful!"), PutProfile(db, q))
  }

  /** The ML callback saves exactly when it answers 200: then both tokens come from the reply
      and the expiry is `now` plus the reply's lifetime (21600 seconds when absent); every
      other answer leaves the store as it was. */
  lemma MlCallbackEffect(db: Db, code: Option<string>, state: Option<string>, now: int, reply: Remote<MlTokenPayload>)
    requires Valid(db)
    ensures var (r, db') := MlCallback(db, code, state, now, reply);
      && Valid(db')
      && (r == Reply(400, "Missing code or state") <==> !Truthy(code) || !Truthy(state))
      && (r == Reply(200, "Mercado Livre authentication successful!") <==>
            (Truthy(code) && Truthy(state) && LookUp(db.profiles, state.value).Found? && reply.Ok?
             && reply.payload.accessToken.Some? && reply.payload.refreshToken.Some?))
      && (r != Reply(200, "Mercado Livre authentication successful!") ==> db' == db)
      && (r == Reply(200, "Mercado Livre authentication successful!") ==>
            var o := ParseInt(state.value).value;
            && db' == db.(profiles := db.profiles[o := db.profiles[o].(
                 mlAccessToken := reply.payload.accessToken,
                 mlRefreshToken := reply.payload.refreshToken,
                 mlTokenExpiry := Some(now + reply.payload.expiresIn.GetOr(ML_DEFAULT_EXPIRES_IN)))]))
  {
  }

  /** The state the start view puts in its redirect leads the callback back to the same
      profile: a complete token reply is stored in the profile whose client id the redirect
      carried. */
  lemma MlStateRoundTrip(db: Db, orgId: Option<string>, code: Option<string>, now: int, reply: Remote<MlTokenPayload>)
    requires Valid(db)
    requires MlAuthStart(db.profiles, orgId).Redirect? && Truthy(code)
    requires reply.Ok? && reply.payload.accessToken.Some? && reply.payload.refreshToken.Some?
    ensures var p := LookUp(db.profiles, orgId.value).profile;
      && MlAuthStart(db.profiles, orgId).url == MlAuthUrl(p.mlClientId, orgId.value)
      && MlCallback(db, code, orgId, now, reply).0 == Reply(200, "Mercado Livre authentication successful!")
      && MlCallback(db, code, orgId, now, reply).1.profiles[p.organization].mlClientId == p.mlClientId
      && MlCallback(db, code, orgId, now, reply).1.profiles[p.organization].mlAccessToken == reply.payload.accessToken
  {
    MlAuthStartOutcomes(db.profiles, orgId);
    MlCallbackEffect(db, code, orgId, now, reply);
  }

  method MlAuthCallback(store: Store, code: Option<string>, state: Option<string>, now: int,
                        reply: Remote<MlTokenPayload>) returns (r: ViewResponse)
    modifies store
    ensures (r, store.State()) == MlCallback(old(store.State()), code, state, now, reply)
  {
    if !Truthy(code) || !Truthy(state) {
      return Reply(400, "Missing code or state");
    }
    var found := LookUp(store.profiles, state.value);
    if found.BadId? {
      return Unhandled;
    }
    if found.NotFound? {
      return Reply(404, "Organization not found");
    }
    var profile := found.profile;
    if reply.Err? {
      return Reply(500, reply.message);
    }
    var data := reply.payload;
    if data.accessToken.None? {
      return Reply(500, KeyErrorMessage("access_token"));
    }
    profile := profile.(mlAccessToken := data.accessToken);
    if data.refreshToken.None? {
      return Reply(500, KeyErrorMessage("refresh_token"));
    }
    profile := profile.(mlRefreshToken := data.refreshToken);
    var expiresIn := data.expiresIn.GetOr(ML_DEFAULT_EXPIRES_IN);
    profile := profile.(mlTokenExpiry := Some(now + expiresIn));
    store.SaveProfile(profile);
    return Reply(200, "Mercado Livre authentication successful!");
  }

  /* ---------------------------------------------------------------- Shopee */

  function ShopeeAuthUrl(rawPartnerId: string, timestamp: int, sign: string, state: string): string {
    SHOPEE_API_URL + SHOPEE_AUTH_PATH + "?partner_id=" + rawPartnerId + "&timestamp=" + IntToString(timestamp)
      + "&sign=" + sign + "&redirect=" + SHOPEE_REDIRECT_URL + "&state=" + state
  }

  /** `ShopeeAuthStartView.get`; the partner id is converted for signing outside any `try`. */
  function ShopeeAuthStartSpec(profiles: map<OrgId, IntegrationProfile>, orgId: Option<string>, now: int, mac: Mac): ViewResponse {
    if !Truthy(orgId) then Reply(400, "organization_id required")
    else match LookUp(profiles, orgId.value)
      case BadId => Unhandled
      case NotFound => Reply(404, "Profile not found")
      case Found(p) =>
        if !Truthy(p.shopeePartnerId) || !Truthy(p.shopeePartnerKey) then Reply(400, "Shopee Partner ID/Key missing")
        else match ParseInt(p.shopeePartnerId.value)
          case None => Unhandled
          case Some(pid) =>
            Redirect(ShopeeAuthUrl(p.shopeePartnerId.value, now,
                                   mac(p.shopeePartnerKey.value, BaseString(pid, SHOPEE_AUTH_PATH, now, None, None)), orgId.value))
  }

  /** The Shopee start view answers 400 without an id or without partner credentials and 404
      for an unknown organization; its redirect carries the time it signed at and the
      signature of partner id, path and that time, and the id as state. */
  lemma ShopeeAuthStartOutcomes(profiles: map<OrgId, IntegrationProfile>, orgId: Option<string>, now: int, mac: Mac)
    ensures var r := ShopeeAuthStartSpec(profiles, orgId, now, mac);
      && (r == Reply(400, "organization_id required") <==> !Truthy(orgId))
      && (r == Reply(404, "Profile not found") <==> Truthy(orgId) && LookUp(profiles, orgId.value).NotFound?)
      && (r == Reply(400, "Shopee Partner ID/Key missing") <==>
            (Truthy(orgId) && LookUp(profiles, orgId.value).Found?
             && (!Truthy(LookUp(profiles, orgId.value).profile.shopeePartnerId)
                 || !Truthy(LookUp(profiles, orgId.value).profile.shopeePartnerKey))))
      && (r.Redirect? ==>
            var p := LookUp(profiles, orgId.value).profile;
            && Truthy(p.shopeePartnerKey) && ParseOptInt(p.shopeePartnerId).Some?
            && r.url == ShopeeAuthUrl(p.shopeePartnerId.value, now,
                 mac(p.shopeePartnerKey.value,
                     IntToString(ParseOptInt(p.shopeePartnerId).value) + SHOPEE_AUTH_PATH + IntToString(now)),
                 orgId.value))
  {
    if ShopeeAuthStartSpec(profiles, orgId, now, mac).Redirect? {
      var p := LookUp(profiles, orgId.value).profile;
      BaseStringWithoutOptionals(ParseOptInt(p.shopeePartnerId).value, SHOPEE_AUTH_PATH, now);
    }
  }

  /** The Shopee start view; the signing call supplies both the timestamp and the signature
      the URL carries. */
  method ShopeeAuthStart(profiles: map<OrgId, IntegrationProfile>, orgId: Option<string>, now: int, mac: Mac)
    returns (r: ViewResponse)
    ensures r == ShopeeAuthStartSpec(profiles, orgId, now, mac)
  {
    if !Truthy(orgId) {
      return Reply(400, "organization_id required");
    }
    var found := LookUp(profiles, orgId.value);
    if found.BadId? {
      return Unhandled;
    }
    if found.NotFound? {
      return Reply(404, "Profile not found");
    }
    var profile := found.profile;
    if !Truthy(profile.shopeePartnerId) || !Truthy(profile.shopeePartnerKey) {
      return Reply(400, "Shopee Partner ID/Key missing");
    }
    var pid := ParseInt(profile.shopeePartnerId.value);
    if pid.None? {
      return Unhandled;
    }
    var sign, timestamp := SignShopeeRequest(SHOPEE_AUTH_PATH, pid.value, profile.shopeePartnerKey.value, None, None, now, mac);
    return Redirect(ShopeeAuthUrl(profile.shopeePartnerId.value, timestamp, sign, orgId.value));
  }

  /** The callback's request body and signing raise outside the `try` when the shop id or
      the stored partner id is no integer, or the partner key is missing. */
  predicate CallbackBodyRaises(p: IntegrationProfile, shopId: string) {
    ParseInt(shopId).None? || ParseOptInt(p.shopeePartnerId).None? || p.shopeePartnerKey.None?
  }

  /** `ShopeeAuthCallbackView.get`: the response and the store it leaves. */
  function ShopeeCallback(db: Db, code: Option<string>, shopId: Option<string>, state: Option<string>,
                          reply: Remote<ShopeeTokenReply>): (ViewResponse, Db)
  {
    if !Truthy(code) || !Truthy(shopId) || !Truthy(state) then (Reply(400, "Missing params"), db)
    else match LookUp(db.profiles, state.value)
      case BadId => (Unhandled, db)
      case NotFound => (Reply(404, "Organization not found"), db)
      case Found(p) =>
        if CallbackBodyRaises(p, shopId.value) then (Unhandled, db)
        else match reply
          case Err(m) => (Reply(500, m), db)
          case Ok(d) =>
            if Truthy(d.error) then (Reply(400, SHOPEE_API_ERROR_PREFIX + OptText(d.message)), db)
            else if d.accessToken.None? then (Reply(500, KeyErrorMessage("access_token")), db)
            else if d.refreshToken.None? then (Reply(500, KeyErrorMessage("refresh_token")), db)
            else
              var q := p.(shopeeAccessToken := d.accessToken, shopeeRefreshToken := d.refreshToken,
                          shopeeShopId := shopId);
              (Reply(200, "Shopee Auth Successful!"), PutProfile(db, q))
  }

  /** The Shopee callback saves exactly when it answers 200: both tokens from the reply and
      the shop id as the text it received; an error envelope answers 400 and every answer
      other than 200 leaves the store as it was. */
  lemma ShopeeCallbackEffect(db: Db, code: Option<string>, shopId: Option<string>, state: Option<string>,
                             reply: Remote<ShopeeTokenReply>)
    requires Valid(db)
    ensures var (r, db') := ShopeeCallback(db, code, shopId, state, reply);
      && Valid(db')
      && (r == Reply(400, "Missing params") <==> !Truthy(code) || !Truthy(shopId) || !Truthy(state))
      && (r == Reply(404, "Organization not found") <==>
            Truthy(code) && Truthy(shopId) && Truthy(state) && LookUp(db.profiles, state.value).NotFound?)
      && (r == Reply(200, "Shopee Auth Successful!") <==>
            (Truthy(code) && Truthy(shopId) && Truthy(state) && LookUp(db.profiles, state.value).Found?
             && !CallbackBodyRaises(LookUp(db.profiles, state.value).profile, shopId.value)
             && reply.Ok? && !Truthy(reply.payload.error)
             && reply.payload.accessToken.Some? && reply.payload.refreshToken.Some?))
      && (r != Reply(200, "Shopee Auth Successful!") ==> db' == db)
      && (r == Reply(200, "Shopee Auth Successful!") ==>
            var o := ParseInt(state.value).value;
            && db' == db.(profiles := db.profiles[o := db.profiles[o].(
                 shopeeAccessToken := reply.payload.accessToken,
                 shopeeRefreshToken := reply.payload.refreshToken,
                 shopeeShopId := shopId)]))
  {
  }

  /** An error envelope answers 400 with the envelope's message and changes nothing. */
  lemma ShopeeErrorEnvelopeRejected(db: Db, code: string, shopId: string, state: string, d: ShopeeTokenReply)
    requires Truthy(Some(code)) && Truthy(Some(state)) && LookUp(db.profiles, state).Found?
    requires !CallbackBodyRaises(LookUp(db.profiles, state).profile, shopId) && |shopId| > 0
    requires Truthy(d.error)
    ensures ShopeeCallback(db, Some(code), Some(shopId), Some(state), Ok(d))
         == (Reply(400, SHOPEE_API_ERROR_PREFIX + OptText(d.message)), db)
  {
  }

  method ShopeeAuthCallback(store: Store, code: Option<string>, shopId: Option<string>, state: Option<string>,
                            now: int, mac: Mac, reply: Remote<ShopeeTokenReply>) returns (r: ViewResponse)
    modifies store
    ensures (r, store.State()) == ShopeeCallback(old(store.State()), code, shopId, state, reply)
  {
    if !Truthy(code) || !Truthy(shopId) || !Truthy(state) {
      return Reply(400, "Missing params");
    }
    var found := LookUp(store.profiles, state.value);
    if found.BadId? {
      return Unhandled;
    }
    if found.NotFound? {
      return Reply(404, "Organization not found");
    }
    var profile := found.profile;
    var shop := ParseInt(shopId.value);
    var partner := ParseOptInt(profile.shopeePartnerId);
    if shop.None? || partner.None? || profile.shopeePartnerKey.None? {
      return Unhandled;
    }
    var _, _ := SignShopeeRequest(SHOPEE_TOKEN_PATH, partner.value, profile.shopeePartnerKey.value, None, None, now, mac);
    if reply.Err? {
      return Reply(500, reply.message);
    }
    var data := reply.payload;
    if Truthy(data.error) {
      return Reply(400, SHOPEE_API_ERROR_PREFIX + OptText(data.message));
    }
    if data.accessToken.None? {
      return Reply(500, KeyErrorMessage("access_token"));
    }
    profile := profile.(shopeeAccessToken := data.accessToken);
    if data.refreshToken.None? {
      return Reply(500, KeyErrorMessage("refresh_token"));
    }
    profile := profile.(shopeeRefreshToken := data.refreshToken, shopeeShopId := shopId);
    store.SaveProfile(profile);
    return Reply(200, "Shopee Auth Successful!");
  }
}
