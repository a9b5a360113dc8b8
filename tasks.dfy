/** The periodic tasks of finance_core/tasks.py: the Shopee token refresh (the second
    `refresh_shopee_token`, which replaces the first at import), the token renewal sweep
    over all profiles and the order collection task. */
module Tasks {
  import opened Common
  import opened Text
  import opened Models
  import opened Ledger
  import opened MlSync
  import opened Signing
  import opened ShopeeApi
  import opened ShopeeFetch

  /** How a Shopee refresh ends: an exception escaping it, or the in-memory object with or
      without the save. */
  datatype ShopeeRefreshOutcome = RefreshCrashed | Unsaved(profile: IntegrationProfile) | Saved(profile: IntegrationProfile)

  /** The request body converts both ids before the `try`, so those conversions escape. */
  predicate BodyRaises(p: IntegrationProfile) {
    ParseOptInt(p.shopeePartnerId).None? || ParseOptInt(p.shopeeShopId).None?
  }

  /** `refresh_shopee_token(profile)` as written. Inside the `try` a missing key (signing),
      a failed call, an error envelope or a missing token key is only logged by the logger:
      no error log entry and no save. The access token is assigned before the refresh token
      is read. `expire_in` goes to an attribute that is not a model field, so it is lost. */
  function RefreshShopeeTokenStep(p: IntegrationProfile, reply: Remote<ShopeeTokenReply>): (o: ShopeeRefreshOutcome)
    ensures o.RefreshCrashed? <==> BodyRaises(p)
    ensures o.Saved? <==> (!BodyRaises(p) && p.shopeePartnerKey.Some? && reply.Ok? && !Truthy(reply.payload.error)
      && reply.payload.accessToken.Some? && reply.payload.refreshToken.Some?)
    ensures o.Saved? ==> o.profile == p.(shopeeAccessToken := reply.payload.accessToken,
                                         shopeeRefreshToken := reply.payload.refreshToken)
    ensures o.Unsaved? ==> o.profile.(shopeeAccessToken := p.shopeeAccessToken) == p
  {
    if BodyRaises(p) then RefreshCrashed
    else if p.shopeePartnerKey.None? then Unsaved(p)
    else match reply
      case Err(_) => Unsaved(p)
      case Ok(d) =>
        if Truthy(d.error) || d.accessToken.None? then Unsaved(p)
        else
          var p1 := p.(shopeeAccessToken := d.accessToken);
          if d.refreshToken.None? then Unsaved(p1)
          else Saved(p1.(shopeeRefreshToken := d.refreshToken))
  }

  /** The refresh with the body built inside the `try`, so that a profile whose ids do not
      convert is skipped like any other failure. */
  function RefreshShopeeTokenIsolatedStep(p: IntegrationProfile, reply: Remote<ShopeeTokenReply>): (o: ShopeeRefreshOutcome)
    ensures !o.RefreshCrashed?
    ensures BodyRaises(p) ==> o == Unsaved(p)
    ensures !BodyRaises(p) ==> o == RefreshShopeeTokenStep(p, reply)
  {
    var o := RefreshShopeeTokenStep(p, reply);
    if o.RefreshCrashed? then Unsaved(p) else o
  }

  function ApplyShopeeRefresh(db: Db, o: ShopeeRefreshOutcome): Db {
    if o.Saved? then PutProfile(db, o.profile) else db
  }

  /** The Shopee refresh never writes the error log nor anything but the profile. */
  lemma ShopeeRefreshNeverLogs(db: Db, p: IntegrationProfile, reply: Remote<ShopeeTokenReply>)
    requires Valid(db) && p.organization in db.profiles
    ensures var db' := ApplyShopeeRefresh(db, RefreshShopeeTokenIsolatedStep(p, reply));
      && Valid(db') && db'.errorLog == db.errorLog && db'.sales == db.sales
      && db'.profiles.Keys == db.profiles.Keys
      && (RefreshShopeeTokenIsolatedStep(p, reply).Unsaved? ==> db' == db)
  {
  }

  /** `refresh_shopee_token(profile)` against the store, with the conversions inside the
      `try`; returns the in-memory object as the function leaves it. */
  method RefreshShopeeToken(store: Store, p: IntegrationProfile, reply: Remote<ShopeeTokenReply>)
    returns (q: IntegrationProfile)
    modifies store
    ensures RefreshShopeeTokenIsolatedStep(p, reply).profile == q
    ensures store.State() == ApplyShopeeRefresh(old(store.State()), RefreshShopeeTokenIsolatedStep(p, reply))
  {
    q := p;
    var partnerId := ParseOptInt(q.shopeePartnerId);
    var shopId := ParseOptInt(q.shopeeShopId);
    if partnerId.None? || shopId.None? || q.shopeePartnerKey.None? || reply.Err? {
      return;
    }
    var d := reply.payload;
    if Truthy(d.error) || d.accessToken.None? {
      return;
    }
    q := q.(shopeeAccessToken := d.accessToken);
    if d.refreshToken.None? {
      return;
    }
    q := q.(shopeeRefreshToken := d.refreshToken);
    store.SaveProfile(q);
  }

  /** The renewal gates of the sweep. */
  predicate MlRenewGate(p: IntegrationProfile) {
    Truthy(p.mlRefreshToken)
  }

  predicate ShopeeRenewGate(p: IntegrationProfile) {
    Truthy(p.shopeeRefreshToken) && Truthy(p.shopeePartnerId)
  }

  /** The ML half of an iteration as written: the refresh runs on the profile object and
      commits its save or its log entry at once. */
  function MlHalfAsWritten(db: Db, p: IntegrationProfile, now: int, ml: Remote<MlTokenPayload>): Db {
    if MlRenewGate(p) then ApplyRefresh(db, RefreshMlTokenStep(p, now, ml)) else db
  }

  /** One iteration of `renew_all_platform_tokens` as written: the same object is refreshed
      for ML, then for Shopee. The flag reports the exception the Shopee refresh raises; the
      store then holds what the ML refresh already committed. */
  function RenewProfileAsWritten(db: Db, p: IntegrationProfile, now: int,
                                 ml: Remote<MlTokenPayload>, shopee: Remote<ShopeeTokenReply>): (Db, bool)
  {
    ShopeeHalfAsWritten(MlHalfAsWritten(db, p, now, ml), MlObjectAsWritten(p, now, ml), shopee)
  }

  /** The object the ML refresh as written hands on to the Shopee refresh. */
  function MlObjectAsWritten(p: IntegrationProfile, now: int, ml: Remote<MlTokenPayload>): (q: IntegrationProfile)
    ensures q.organization == p.organization
    ensures ShopeeRenewGate(q) == ShopeeRenewGate(p) && BodyRaises(q) == BodyRaises(p)
  {
    if MlRenewGate(p) then RefreshMlTokenStep(p, now, ml).profile else p
  }

  /** The Shopee half as written, with the flag of the exception it raises. */
  function ShopeeHalfAsWritten(db: Db, p: IntegrationProfile, shopee: Remote<ShopeeTokenReply>): (Db, bool) {
    if !ShopeeRenewGate(p) then (db, false)
    else
      var so := RefreshShopeeTokenStep(p, shopee);
      if so.RefreshCrashed? then (db, true) else (ApplyShopeeRefresh(db, so), false)
  }

  /** The sweep as written over the profiles listed in `order`, as read at its start; the flag
      reports the exception that ended it. */
  function RenewSweepAsWritten(db: Db, snap: map<OrgId, IntegrationProfile>, order: seq<OrgId>, now: int,
                               ml: OrgId -> Remote<MlTokenPayload>, shopee: OrgId -> Remote<ShopeeTokenReply>): (Db, bool)
    requires forall k :: 0 <= k < |order| ==> order[k] in snap
    decreases |order|
  {
    if order == [] then (db, false)
    else
      var (db1, crashed) := RenewProfileAsWritten(db, snap[order[0]], now, ml(order[0]), shopee(order[0]));
      if crashed then (db1, true) else RenewSweepAsWritten(db1, snap, order[1..], now, ml, shopee)
  }

  /** An iteration as written raises exactly when the profile passes the Shopee gate and its
      ids do not convert (the ML refresh touches neither), and that exception leaves the ML
      refresh's save or log entry in place. */
  lemma RenewProfileAsWrittenCrash(db: Db, p: IntegrationProfile, now: int,
                                   ml: Remote<MlTokenPayload>, shopee: Remote<ShopeeTokenReply>)
    ensures RenewProfileAsWritten(db, p, now, ml, shopee).1 <==> ShopeeRenewGate(p) && BodyRaises(p)
    ensures RenewProfileAsWritten(db, p, now, ml, shopee).1 ==>
      RenewProfileAsWritten(db, p, now, ml, shopee).0 == MlHalfAsWritten(db, p, now, ml)
  {
  }

  /** One iteration as written keeps the store valid, writes only profiles and appends at
      most one entry to the log. */
  lemma RenewProfileAsWrittenEffect(db: Db, p: IntegrationProfile, now: int,
                                    ml: Remote<MlTokenPayload>, shopee: Remote<ShopeeTokenReply>)
    requires Valid(db) && p.organization in db.profiles
    ensures var db' := RenewProfileAsWritten(db, p, now, ml, shopee).0;
      && Valid(db') && db'.profiles.Keys == db.profiles.Keys
      && db'.sales == db.sales && db'.logistics == db.logistics && db'.taxProfiles == db.taxProfiles
      && |db.errorLog| <= |db'.errorLog| <= |db.errorLog| + 1 && db'.errorLog[..|db.errorLog|] == db.errorLog
  {
    MlHalfAsWrittenEffect(db, p, now, ml);
    ShopeeStepEffect(MlHalfAsWritten(db, p, now, ml), MlObjectAsWritten(p, now, ml), shopee);
  }

  lemma MlHalfAsWrittenEffect(db: Db, p: IntegrationProfile, now: int, ml: Remote<MlTokenPayload>)
    requires Valid(db) && p.organization in db.profiles
    ensures var db1 := MlHalfAsWritten(db, p, now, ml);
      && Valid(db1) && db1.profiles.Keys == db.profiles.Keys
      && db1.sales == db.sales && db1.logistics == db.logistics && db1.taxProfiles == db.taxProfiles
      && |db.errorLog| <= |db1.errorLog| <= |db.errorLog| + 1 && db1.errorLog[..|db.errorLog|] == db.errorLog
  {
    if MlRenewGate(p) {
      ApplyRefreshFrame(db, RefreshMlTokenStep(p, now, ml));
    } else {
      assert db.errorLog[..|db.errorLog|] == db.errorLog;
    }
  }

  lemma ApplyRefreshFrame(db: Db, o: RefreshOutcome)
    requires Valid(db) && (o.saved ==> o.log.None? && o.profile.organization in db.profiles)
    ensures var db1 := ApplyRefresh(db, o);
      && Valid(db1) && db1.profiles.Keys == db.profiles.Keys
      && db1.sales == db.sales && db1.logistics == db.logistics && db1.taxProfiles == db.taxProfiles
      && |db.errorLog| <= |db1.errorLog| <= |db.errorLog| + 1 && db1.errorLog[..|db.errorLog|] == db.errorLog
  {
    ApplyRefreshEffect(db, o);
    var extra := if o.log.Some? then [o.log.value] else [];
    assert (db.errorLog + extra)[..|db.errorLog|] == db.errorLog;
  }

  /** The Shopee refresh as written writes at most the profile and never logs. */
  lemma ShopeeStepEffect(db: Db, p: IntegrationProfile, shopee: Remote<ShopeeTokenReply>)
    requires Valid(db) && p.organization in db.profiles
    ensures var db2 := ShopeeHalfAsWritten(db, p, shopee).0;
      && Valid(db2) && db2.profiles.Keys == db.profiles.Keys
      && db2.sales == db.sales && db2.logistics == db.logistics && db2.taxProfiles == db.taxProfiles
      && db2.errorLog == db.errorLog
  {
    var so := RefreshShopeeTokenStep(p, shopee);
    if ShopeeRenewGate(p) && so.Saved? {
      PutProfileKeepsValid(db, so.profile);
    }
  }

  /** The sweep as written keeps the store valid, writes only profiles and appends to the
      log; it ends in an exception exactly when some listed profile passes the Shopee gate
      with ids that do not convert. */
  lemma {:induction false} RenewSweepAsWrittenEffect(db: Db, snap: map<OrgId, IntegrationProfile>, order: seq<OrgId>, now: int,
                                                     ml: OrgId -> Remote<MlTokenPayload>, shopee: OrgId -> Remote<ShopeeTokenReply>)
    requires Valid(db)
    requires forall k :: 0 <= k < |order| ==> order[k] in snap && snap[order[k]].organization in db.profiles
    ensures var (db', crashed) := RenewSweepAsWritten(db, snap, order, now, ml, shopee);
      && Valid(db') && db'.profiles.Keys == db.profiles.Keys
      && db'.sales == db.sales && db'.logistics == db.logistics && db'.taxProfiles == db.taxProfiles
      && |db.errorLog| <= |db'.errorLog| && db'.errorLog[..|db.errorLog|] == db.errorLog
      && (crashed <==> exists k :: 0 <= k < |order| && ShopeeRenewGate(snap[order[k]]) && BodyRaises(snap[order[k]]))
    decreases |order|
  {
    if order == [] {
      assert db.errorLog[..|db.errorLog|] == db.errorLog;
    } else {
      var p := snap[order[0]];
      var rest := order[1..];
      RenewProfileAsWrittenCrash(db, p, now, ml(order[0]), shopee(order[0]));
      RenewProfileAsWrittenEffect(db, p, now, ml(order[0]), shopee(order[0]));
      var (db1, c) := RenewProfileAsWritten(db, p, now, ml(order[0]), shopee(order[0]));
      if c {
        assert ShopeeRenewGate(snap[order[0]]) && BodyRaises(snap[order[0]]);
      } else {
        assert forall k :: 0 <= k < |rest| ==> rest[k] == order[k + 1];
        RenewSweepAsWrittenEffect(db1, snap, rest, now, ml, shopee);
        PrefixOfPrefix(db.errorLog, db1.errorLog, RenewSweepAsWritten(db1, snap, rest, now, ml, shopee).0.errorLog);
        if RenewSweepAsWritten(db1, snap, rest, now, ml, shopee).1 {
          var k :| 0 <= k < |rest| && ShopeeRenewGate(snap[rest[k]]) && BodyRaises(snap[rest[k]]);
          assert rest[k] == order[k + 1];
        } else {
          forall k | 0 <= k < |order|
            ensures !(ShopeeRenewGate(snap[order[k]]) && BodyRaises(snap[order[k]]))
          {
            if k > 0 {
              assert order[k] == rest[k - 1];
            }
          }
        }
      }
    }
  }

  /** Finding, as written: a profile whose ML refresh succeeds and whose Shopee refresh then
      raises on the missing shop id keeps the renewed ML pair in the store; the task ends
      there. */
  lemma MlWriteSurvivesShopeeCrash(db: Db, o: OrgId, now: int,
                                   ml: OrgId -> Remote<MlTokenPayload>, shopee: OrgId -> Remote<ShopeeTokenReply>)
    requires o in db.profiles && db.profiles[o].organization == o
    requires db.profiles[o].mlRefreshToken == Some("r") && db.profiles[o].mlTokenExpiry.None?
    requires ml(o) == Ok(MlTokenPayload(Some("a-new"), Some("r-new"), Some(21600)))
    requires db.profiles[o].shopeeRefreshToken == Some("s") && db.profiles[o].shopeePartnerId == Some("7")
    requires db.profiles[o].shopeeShopId.None?
    ensures RenewSweepAsWritten(db, db.profiles, [o], now, ml, shopee).1
    ensures RenewSweepAsWritten(db, db.profiles, [o], now, ml, shopee).0
         == PutProfile(db, db.profiles[o].(mlAccessToken := Some("a-new"), mlRefreshToken := Some("r-new"),
                                           mlTokenExpiry := Some(now + 21600)))
  {
    assert ParseInt("7") == Some(7);
  }

  /** The ML half of a corrected iteration: the atomic refresh, when the profile has a
      refresh token. */
  function MlHalf(db: Db, p: IntegrationProfile, now: int, ml: Remote<MlTokenPayload>): Db {
    if MlRenewGate(p) then ApplyRefresh(db, RefreshMlTokenAtomicStep(p, now, ml)) else db
  }

  /** The object the ML half hands on to the Shopee half. */
  function MlRenewed(p: IntegrationProfile, now: int, ml: Remote<MlTokenPayload>): (q: IntegrationProfile)
    ensures q.organization == p.organization
  {
    if MlRenewGate(p) then RefreshMlTokenAtomicStep(p, now, ml).profile else p
  }

  /** The Shopee half of a corrected iteration: the isolated refresh, when the object has a
      refresh token and a partner id. */
  function ShopeeHalf(db: Db, p: IntegrationProfile, shopee: Remote<ShopeeTokenReply>): Db {
    if ShopeeRenewGate(p) then ApplyShopeeRefresh(db, RefreshShopeeTokenIsolatedStep(p, shopee)) else db
  }

  function ShopeeRenewed(p: IntegrationProfile, shopee: Remote<ShopeeTokenReply>): (q: IntegrationProfile)
    ensures q.organization == p.organization
  {
    if ShopeeRenewGate(p) && RefreshShopeeTokenIsolatedStep(p, shopee).Saved? then
      RefreshShopeeTokenIsolatedStep(p, shopee).profile
    else p
  }

  /** One iteration of the corrected sweep: an atomic ML refresh and an isolated Shopee one. */
  function RenewProfile(db: Db, p: IntegrationProfile, now: int,
                        ml: Remote<MlTokenPayload>, shopee: Remote<ShopeeTokenReply>): Db
  {
    ShopeeHalf(MlHalf(db, p, now, ml), MlRenewed(p, now, ml), shopee)
  }

  function RenewSweep(db: Db, snap: map<OrgId, IntegrationProfile>, order: seq<OrgId>, now: int,
                      ml: OrgId -> Remote<MlTokenPayload>, shopee: OrgId -> Remote<ShopeeTokenReply>): Db
    requires forall k :: 0 <= k < |order| ==> order[k] in snap
    decreases |order|
  {
    if order == [] then db
    else RenewSweep(RenewProfile(db, snap[order[0]], now, ml(order[0]), shopee(order[0])), snap, order[1..], now, ml, shopee)
  }

  /** The profile a corrected iteration leaves. */
  function RenewedProfile(p: IntegrationProfile, now: int, ml: Remote<MlTokenPayload>,
                          shopee: Remote<ShopeeTokenReply>): IntegrationProfile
  {
    ShopeeRenewed(MlRenewed(p, now, ml), shopee)
  }

  /** The renewed profile carries new ML tokens exactly when the ML refresh completed and
      new Shopee tokens exactly when the Shopee refresh completed, each judged on the
      profile's own fields; every other field is as it was. */
  lemma RenewedProfileFields(p: IntegrationProfile, now: int, ml: Remote<MlTokenPayload>,
                             shopee: Remote<ShopeeTokenReply>)
    ensures var q := RenewedProfile(p, now, ml, shopee);
      && q.organization == p.organization
      && (RefreshComplete(p, now, ml) ==>
            q.mlAccessToken == ml.payload.accessToken && q.mlRefreshToken == ml.payload.refreshToken
            && q.mlTokenExpiry == Some(now + ml.payload.expiresIn.value))
      && (!RefreshComplete(p, now, ml) ==>
            q.mlAccessToken == p.mlAccessToken && q.mlRefreshToken == p.mlRefreshToken
            && q.mlTokenExpiry == p.mlTokenExpiry)
      && (ShopeeRenewGate(p) && RefreshShopeeTokenIsolatedStep(p, shopee).Saved? ==>
            q.shopeeAccessToken == shopee.payload.accessToken && q.shopeeRefreshToken == shopee.payload.refreshToken)
      && (!(ShopeeRenewGate(p) && RefreshShopeeTokenIsolatedStep(p, shopee).Saved?) ==>
            q.shopeeAccessToken == p.shopeeAccessToken && q.shopeeRefreshToken == p.shopeeRefreshToken)
      && q.(mlAccessToken := p.mlAccessToken, mlRefreshToken := p.mlRefreshToken, mlTokenExpiry := p.mlTokenExpiry,
            shopeeAccessToken := p.shopeeAccessToken, shopeeRefreshToken := p.shopeeRefreshToken) == p
  {
  }

  /** The ML half writes the atomic outcome and at most one log entry. */
  lemma MlHalfEffect(db: Db, p: IntegrationProfile, now: int, ml: Remote<MlTokenPayload>)
    requires Valid(db) && p.organization in db.profiles && db.profiles[p.organization] == p
    ensures var db1 := MlHalf(db, p, now, ml);
      && Valid(db1)
      && db1.profiles == db.profiles[p.organization := MlRenewed(p, now, ml)]
      && db1.sales == db.sales && db1.logistics == db.logistics && db1.taxProfiles == db.taxProfiles
      && |db.errorLog| <= |db1.errorLog| <= |db.errorLog| + 1 && db1.errorLog[..|db.errorLog|] == db.errorLog
  {
    assert db.profiles[p.organization := p] == db.profiles;
    assert db.errorLog[..|db.errorLog|] == db.errorLog;
    if MlRenewGate(p) {
      AtomicRefreshSameStore(db, p, now, ml);
      RefreshEffect(db, now, ml, p.organization);
    }
  }

  /** The Shopee half writes at most the profile, and no log entry. */
  lemma ShopeeHalfEffect(db: Db, p: IntegrationProfile, shopee: Remote<ShopeeTokenReply>)
    requires Valid(db) && p.organization in db.profiles && db.profiles[p.organization] == p
    ensures var db2 := ShopeeHalf(db, p, shopee);
      && Valid(db2)
      && db2.profiles == db.profiles[p.organization := ShopeeRenewed(p, shopee)]
      && db2.sales == db.sales && db2.logistics == db.logistics && db2.taxProfiles == db.taxProfiles
      && db2.errorLog == db.errorLog
  {
    assert db.profiles[p.organization := p] == db.profiles;
  }

  lemma OverwriteProfile(m: map<OrgId, IntegrationProfile>, k: OrgId, a: IntegrationProfile, b: IntegrationProfile)
    ensures m[k := a][k := b] == m[k := b]
  {
  }

  /** One corrected iteration on the stored profile writes exactly the renewed profile. */
  lemma RenewProfileEffect(db: Db, p: IntegrationProfile, now: int,
                           ml: Remote<MlTokenPayload>, shopee: Remote<ShopeeTokenReply>)
    requires Valid(db) && p.organization in db.profiles && db.profiles[p.organization] == p
    ensures var db' := RenewProfile(db, p, now, ml, shopee);
      && Valid(db')
      && db'.profiles == db.profiles[p.organization := RenewedProfile(p, now, ml, shopee)]
      && db'.sales == db.sales && db'.logistics == db.logistics && db'.taxProfiles == db.taxProfiles
      && |db.errorLog| <= |db'.errorLog| <= |db.errorLog| + 1 && db'.errorLog[..|db.errorLog|] == db.errorLog
  {
    MlHalfEffect(db, p, now, ml);
    var db1 := MlHalf(db, p, now, ml);
    var p1 := MlRenewed(p, now, ml);
    assert db1.profiles[p.organization] == p1;
    ShopeeHalfEffect(db1, p1, shopee);
    OverwriteProfile(db.profiles, p.organization, p1, RenewedProfile(p, now, ml, shopee));
  }

  /** The corrected sweep renews every listed profile, each from its own replies, and leaves
      the others, the sales, the rules and the tax profiles alone. */
  lemma {:induction false} RenewSweepEffect(db: Db, snap: map<OrgId, IntegrationProfile>, order: seq<OrgId>, now: int,
                                            ml: OrgId -> Remote<MlTokenPayload>, shopee: OrgId -> Remote<ShopeeTokenReply>)
    requires Valid(db)
    requires forall k :: 0 <= k < |order| ==> (order[k] in snap && order[k] in db.profiles
      && db.profiles[order[k]] == snap[order[k]] && snap[order[k]].organization == order[k])
    requires forall i, j :: 0 <= i < j < |order| ==> order[i] != order[j]
    ensures var db' := RenewSweep(db, snap, order, now, ml, shopee);
      && Valid(db')
      && db'.profiles.Keys == db.profiles.Keys
      && (forall k :: 0 <= k < |order| ==>
            db'.profiles[order[k]] == RenewedProfile(snap[order[k]], now, ml(order[k]), shopee(order[k])))
      && (forall o :: o in db.profiles && o !in order ==> db'.profiles[o] == db.profiles[o])
      && db'.sales == db.sales && db'.logistics == db.logistics && db'.taxProfiles == db.taxProfiles
      && |db.errorLog| <= |db'.errorLog| && db'.errorLog[..|db.errorLog|] == db.errorLog
  {
    RenewSweepFrame(db, snap, order, now, ml, shopee);
    RenewSweepLog(db, snap, order, now, ml, shopee);
    RenewSweepRenews(db, snap, order, now, ml, shopee);
    forall x | x in db.profiles && x !in order
      ensures RenewSweep(db, snap, order, now, ml, shopee).profiles[x] == db.profiles[x]
    {
      RenewSweepOthers(db, snap, order, now, ml, shopee, x);
    }
  }

  /** The store-wide part of `RenewSweepEffect`: what the sweep leaves alone. */
  lemma {:induction false} RenewSweepFrame(db: Db, snap: map<OrgId, IntegrationProfile>, order: seq<OrgId>, now: int,
                                           ml: OrgId -> Remote<MlTokenPayload>, shopee: OrgId -> Remote<ShopeeTokenReply>)
    requires Valid(db)
    requires forall k :: 0 <= k < |order| ==> (order[k] in snap && order[k] in db.profiles
      && db.profiles[order[k]] == snap[order[k]] && snap[order[k]].organization == order[k])
    requires forall i, j :: 0 <= i < j < |order| ==> order[i] != order[j]
    ensures var db' := RenewSweep(db, snap, order, now, ml, shopee);
      && Valid(db')
      && db'.profiles.Keys == db.profiles.Keys
      && db'.sales == db.sales && db'.logistics == db.logistics && db'.taxProfiles == db.taxProfiles
    decreases |order|
  {
    if order != [] {
      var o := order[0];
      var rest := order[1..];
      RenewProfileEffect(db, snap[o], now, ml(o), shopee(o));
      assert forall k :: 0 <= k < |rest| ==> rest[k] == order[k + 1] && rest[k] != o;
      RenewSweepFrame(RenewProfile(db, snap[o], now, ml(o), shopee(o)), snap, rest, now, ml, shopee);
    }
  }

  /** The profiles the sweep does not list are left as they were. */
  lemma {:induction false} RenewSweepOthers(db: Db, snap: map<OrgId, IntegrationProfile>, order: seq<OrgId>, now: int,
                                            ml: OrgId -> Remote<MlTokenPayload>, shopee: OrgId -> Remote<ShopeeTokenReply>,
                                            x: OrgId)
    requires Valid(db)
    requires forall k :: 0 <= k < |order| ==> (order[k] in snap && order[k] in db.profiles
      && db.profiles[order[k]] == snap[order[k]] && snap[order[k]].organization == order[k])
    requires forall i, j :: 0 <= i < j < |order| ==> order[i] != order[j]
    requires x in db.profiles && x !in order
    ensures x in RenewSweep(db, snap, order, now, ml, shopee).profiles
    ensures RenewSweep(db, snap, order, now, ml, shopee).profiles[x] == db.profiles[x]
    decreases |order|
  {
    if order != [] {
      var o := order[0];
      var rest := order[1..];
      RenewProfileEffect(db, snap[o], now, ml(o), shopee(o));
      assert forall k :: 0 <= k < |rest| ==> rest[k] == order[k + 1] && rest[k] != o;
      assert x != o && x !in rest;
      RenewSweepOthers(RenewProfile(db, snap[o], now, ml(o), shopee(o)), snap, rest, now, ml, shopee, x);
    }
  }

  /** The sweep only appends to the error log. */
  lemma {:induction false} RenewSweepLog(db: Db, snap: map<OrgId, IntegrationProfile>, order: seq<OrgId>, now: int,
                                         ml: OrgId -> Remote<MlTokenPayload>, shopee: OrgId -> Remote<ShopeeTokenReply>)
    requires Valid(db)
    requires forall k :: 0 <= k < |order| ==> (order[k] in snap && order[k] in db.profiles
      && db.profiles[order[k]] == snap[order[k]] && snap[order[k]].organization == order[k])
    requires forall i, j :: 0 <= i < j < |order| ==> order[i] != order[j]
    ensures var db' := RenewSweep(db, snap, order, now, ml, shopee);
      |db.errorLog| <= |db'.errorLog| && db'.errorLog[..|db.errorLog|] == db.errorLog
    decreases |order|
  {
    if order == [] {
      assert db.errorLog[..|db.errorLog|] == db.errorLog;
    } else {
      var o := order[0];
      var rest := order[1..];
      RenewProfileEffect(db, snap[o], now, ml(o), shopee(o));
      var db1 := RenewProfile(db, snap[o], now, ml(o), shopee(o));
      assert forall k :: 0 <= k < |rest| ==> rest[k] == order[k + 1] && rest[k] != o;
      RenewSweepLog(db1, snap, rest, now, ml, shopee);
      PrefixOfPrefix(db.errorLog, db1.errorLog, RenewSweep(db1, snap, rest, now, ml, shopee).errorLog);
    }
  }

  lemma PrefixOfPrefix<T>(a: seq<T>, b: seq<T>, c: seq<T>)
    requires |a| <= |b| <= |c| && b[..|a|] == a && c[..|b|] == b
    ensures c[..|a|] == a
  {
    assert c[..|a|] == c[..|b|][..|a|];
  }

  /** The per-profile part of `RenewSweepEffect`. */
  lemma {:induction false} RenewSweepRenews(db: Db, snap: map<OrgId, IntegrationProfile>, order: seq<OrgId>, now: int,
                                            ml: OrgId -> Remote<MlTokenPayload>, shopee: OrgId -> Remote<ShopeeTokenReply>)
    requires Valid(db)
    requires forall k :: 0 <= k < |order| ==> (order[k] in snap && order[k] in db.profiles
      && db.profiles[order[k]] == snap[order[k]] && snap[order[k]].organization == order[k])
    requires forall i, j :: 0 <= i < j < |order| ==> order[i] != order[j]
    ensures forall k :: 0 <= k < |order| ==>
      order[k] in RenewSweep(db, snap, order, now, ml, shopee).profiles &&
      RenewSweep(db, snap, order, now, ml, shopee).profiles[order[k]]
        == RenewedProfile(snap[order[k]], now, ml(order[k]), shopee(order[k]))
    decreases |order|
  {
    if order != [] {
      var o := order[0];
      var rest := order[1..];
      RenewProfileEffect(db, snap[o], now, ml(o), shopee(o));
      var db1 := RenewProfile(db, snap[o], now, ml(o), shopee(o));
      assert forall k :: 0 <= k < |rest| ==> rest[k] == order[k + 1] && rest[k] != o;
      RenewSweepRenews(db1, snap, rest, now, ml, shopee);
      assert o !in rest;
      RenewSweepOthers(db1, snap, rest, now, ml, shopee, o);
      var db' := RenewSweep(db1, snap, rest, now, ml, shopee);
      forall k | 0 < k < |order|
        ensures order[k] in db'.profiles
        ensures db'.profiles[order[k]] == RenewedProfile(snap[order[k]], now, ml(order[k]), shopee(order[k]))
      {
        assert order[k] == rest[k - 1];
      }
    }
  }

  /** Finding, as written: a profile with a Shopee refresh token and partner id but no shop id
      makes `int(None)` raise before the `try`; the task ends and the next profile's due ML
      token is never refreshed. The corrected sweep refreshes it. */
  lemma MissingShopIdStopsSweep(db: Db, o1: OrgId, o2: OrgId, now: int,
                                ml: OrgId -> Remote<MlTokenPayload>, shopee: OrgId -> Remote<ShopeeTokenReply>)
    requires Valid(db) && o1 != o2 && o1 in db.profiles && o2 in db.profiles
    requires db.profiles[o1].mlRefreshToken.None?
    requires db.profiles[o1].shopeeRefreshToken == Some("s") && db.profiles[o1].shopeePartnerId == Some("7")
    requires db.profiles[o1].shopeeShopId.None?
    requires db.profiles[o2].mlRefreshToken == Some("r") && db.profiles[o2].mlTokenExpiry.None?
    requires db.profiles[o2].shopeeRefreshToken.None?
    requires ml(o2) == Ok(MlTokenPayload(Some("a2"), Some("r2"), Some(21600)))
    ensures RenewSweepAsWritten(db, db.profiles, [o1, o2], now, ml, shopee).1
    ensures RenewSweepAsWritten(db, db.profiles, [o1, o2], now, ml, shopee).0.profiles[o2] == db.profiles[o2]
    ensures o2 in RenewSweep(db, db.profiles, [o1, o2], now, ml, shopee).profiles
    ensures RenewSweep(db, db.profiles, [o1, o2], now, ml, shopee).profiles[o2].mlAccessToken == Some("a2")
  {
    assert ParseInt("7") == Some(7);
    assert [o1, o2][1..] == [o2];
    RenewSweepEffect(db, db.profiles, [o1, o2], now, ml, shopee);
    RenewedProfileFields(db.profiles[o2], now, ml(o2), shopee(o2));
  }

  /** Finding, as written: an ML reply without `refresh_token` leaves the new access token on
      the object, and a successful Shopee refresh of the same object then saves it next to
      the old refresh token. The corrected sweep keeps the stored ML pair. */
  lemma PartialMlTokenPersisted(db: Db, o: OrgId, now: int,
                                ml: OrgId -> Remote<MlTokenPayload>, shopee: OrgId -> Remote<ShopeeTokenReply>)
    requires o in db.profiles && db.profiles[o].organization == o
    requires db.profiles[o].mlAccessToken == Some("a-old") && db.profiles[o].mlRefreshToken == Some("r-old")
    requires db.profiles[o].mlTokenExpiry.None?
    requires db.profiles[o].shopeeRefreshToken == Some("s") && db.profiles[o].shopeePartnerId == Some("7")
    requires db.profiles[o].shopeeShopId == Some("8") && db.profiles[o].shopeePartnerKey == Some("k")
    requires ml(o) == Ok(MlTokenPayload(Some("a-new"), None, Some(21600)))
    requires shopee(o) == Ok(ShopeeTokenReply(Some(""), None, Some("sa"), Some("sr"), None))
    ensures !RenewSweepAsWritten(db, db.profiles, [o], now, ml, shopee).1
    ensures o in RenewSweepAsWritten(db, db.profiles, [o], now, ml, shopee).0.profiles
    ensures RenewSweepAsWritten(db, db.profiles, [o], now, ml, shopee).0.profiles[o].mlAccessToken == Some("a-new")
    ensures RenewSweepAsWritten(db, db.profiles, [o], now, ml, shopee).0.profiles[o].mlRefreshToken == Some("r-old")
    ensures o in RenewSweep(db, db.profiles, [o], now, ml, shopee).profiles
    ensures RenewSweep(db, db.profiles, [o], now, ml, shopee).profiles[o].mlAccessToken == Some("a-old")
  {
    assert ParseInt("7") == Some(7);
    assert ParseInt("8") == Some(8);
  }

  /** `renew_all_platform_tokens()` (corrected); `order` lists every stored profile once. */
  method RenewAllPlatformTokens(store: Store, order: seq<OrgId>, now: int,
                                ml: OrgId -> Remote<MlTokenPayload>, shopee: OrgId -> Remote<ShopeeTokenReply>)
    requires forall k :: 0 <= k < |order| ==> order[k] in store.profiles
    modifies store
    ensures store.State() == RenewSweep(old(store.State()), old(store.profiles), order, now, ml, shopee)
  {
    var snap := store.profiles;
    var i := 0;
    while i < |order|
      invariant 0 <= i <= |order|
      invariant forall k :: 0 <= k < |order| ==> order[k] in snap
      invariant RenewSweep(store.State(), snap, order[i..], now, ml, shopee)
             == RenewSweep(old(store.State()), snap, order, now, ml, shopee)
    {
      assert order[i..][0] == order[i] && order[i..][1..] == order[i + 1..];
      var profile := snap[order[i]];
      if Truthy(profile.mlRefreshToken) {
        profile := RefreshMlToken(store, profile, now, ml(order[i]));
      }
      if Truthy(profile.shopeeRefreshToken) && Truthy(profile.shopeePartnerId) {
        var _ := RefreshShopeeToken(store, profile, shopee(order[i]));
      }
      i := i + 1;
    }
    assert order[|order|..] == [];
  }

  /** The Shopee loop of the collection task: one fetch per listed profile with an access
      token; the flag reports an exception that ended the task. */
  function ShopeeFetchAll(db: Db, snap: map<OrgId, IntegrationProfile>, order: seq<OrgId>, now: int,
                          replies: OrgId -> ShopeeReplies): (Db, bool)
    requires forall k :: 0 <= k < |order| ==> order[k] in snap
    decreases |order|
  {
    if order == [] then (db, false)
    else if !Truthy(snap[order[0]].shopeeAccessToken) then ShopeeFetchAll(db, snap, order[1..], now, replies)
    else match FetchShopee(db, snap[order[0]], now, replies(order[0]))
      case None => (db, true)
      case Some(db1) => ShopeeFetchAll(db1, snap, order[1..], now, replies)
  }

  /** `fetch_all_new_orders()`: the ML loop once over all profiles, then the Shopee fetch per
      profile of the queryset read at the start. */
  function FetchAll(db: Db, snap: map<OrgId, IntegrationProfile>, order: seq<OrgId>, now: int,
                    ml: OrgId -> MlReplies, shopee: OrgId -> ShopeeReplies): (Db, bool)
    requires forall k :: 0 <= k < |order| ==> order[k] in snap
  {
    ShopeeFetchAll(MlFetchAll(db, snap, order, now, ml), snap, order, now, shopee)
  }

  /** The Shopee loop keeps the store valid, writes no profile, rule or tax profile, and only
      appends to the log; an exception comes from a listed profile whose client cannot be
      built. */
  lemma {:induction false} ShopeeFetchAllEffect(db: Db, snap: map<OrgId, IntegrationProfile>, order: seq<OrgId>,
                                                now: int, replies: OrgId -> ShopeeReplies)
    requires forall k :: 0 <= k < |order| ==> order[k] in snap
    requires Valid(db)
    ensures var (db', crashed) := ShopeeFetchAll(db, snap, order, now, replies);
      && Valid(db')
      && db'.profiles == db.profiles && db'.taxProfiles == db.taxProfiles && db'.logistics == db.logistics
      && db.sales.Keys <= db'.sales.Keys
      && |db.errorLog| <= |db'.errorLog| && db'.errorLog[..|db.errorLog|] == db.errorLog
      && (crashed ==> exists k :: 0 <= k < |order| && HasShopeeCredentials(snap[order[k]]) && ClientOf(snap[order[k]]).None?)
    decreases |order|
  {
    if order == [] {
      assert db.errorLog[..|db.errorLog|] == db.errorLog;
    } else {
      var p := snap[order[0]];
      var rest := order[1..];
      assert forall k :: 0 <= k < |rest| ==> rest[k] == order[k + 1];
      if !Truthy(p.shopeeAccessToken) {
        ShopeeFetchAllEffect(db, snap, rest, now, replies);
      } else if FetchShopee(db, p, now, replies(order[0])).None? {
        assert db.errorLog[..|db.errorLog|] == db.errorLog;
        assert HasShopeeCredentials(p) && ClientOf(p).None?;
      } else {
        var db1 := FetchShopee(db, p, now, replies(order[0])).value;
        FetchShopeeEffect(db, p, now, replies(order[0]));
        ShopeeFetchAllEffect(db1, snap, rest, now, replies);
        var db' := ShopeeFetchAll(db1, snap, rest, now, replies).0;
        assert db'.errorLog[..|db.errorLog|] == db'.errorLog[..|db1.errorLog|][..|db.errorLog|];
        if ShopeeFetchAll(db1, snap, rest, now, replies).1 {
          var k :| 0 <= k < |rest| && HasShopeeCredentials(snap[rest[k]]) && ClientOf(snap[rest[k]]).None?;
          assert order[k + 1] == rest[k];
        }
      }
    }
  }

  /** The collection task keeps the store valid and only appends to the log; it never writes
      a rule or a tax profile. */
  lemma FetchAllEffect(db: Db, snap: map<OrgId, IntegrationProfile>, order: seq<OrgId>, now: int,
                       ml: OrgId -> MlReplies, shopee: OrgId -> ShopeeReplies)
    requires forall k :: 0 <= k < |order| ==> order[k] in snap && snap[order[k]].organization == order[k]
    requires Valid(db)
    ensures var db' := FetchAll(db, snap, order, now, ml, shopee).0;
      && Valid(db') && db'.taxProfiles == db.taxProfiles && db'.logistics == db.logistics
      && |db.errorLog| <= |db'.errorLog| && db'.errorLog[..|db.errorLog|] == db.errorLog
  {
    MlFetchAllEffect(db, snap, order, now, ml);
    var db1 := MlFetchAll(db, snap, order, now, ml);
    ShopeeFetchAllEffect(db1, snap, order, now, shopee);
    var db' := FetchAll(db, snap, order, now, ml, shopee).0;
    assert db'.errorLog[..|db.errorLog|] == db'.errorLog[..|db1.errorLog|][..|db.errorLog|];
  }

  /** `fetch_all_new_orders()`; `order` lists every stored profile once. The first loop of the
      source has no effect and is not modelled. */
  method FetchAllNewOrders(store: Store, order: seq<OrgId>, now: int,
                           ml: OrgId -> MlReplies, shopee: OrgId -> ShopeeReplies, mac: Mac)
    returns (crashed: bool)
    requires forall k :: 0 <= k < |order| ==> order[k] in store.profiles
    modifies store
    ensures (store.State(), crashed) == FetchAll(old(store.State()), old(store.profiles), order, now, ml, shopee)
  {
    var snap := store.profiles;
    FetchAndProcessMlOrders(store, order, now, ml);
    crashed := false;
    var i := 0;
    while i < |order|
      invariant 0 <= i <= |order|
      invariant forall k :: 0 <= k < |order| ==> order[k] in snap
      invariant !crashed
      invariant ShopeeFetchAll(store.State(), snap, order[i..], now, shopee)
             == FetchAll(old(store.State()), snap, order, now, ml, shopee)
    {
      assert order[i..][0] == order[i] && order[i..][1..] == order[i + 1..];
      var profile := snap[order[i]];
      if Truthy(profile.shopeeAccessToken) {
        var c, _ := FetchAndProcessShopeeOrders(store, profile, now, shopee(order[i]), mac);
        if c {
          crashed := true;
          return;
        }
      }
      i := i + 1;
    }
    assert order[|order|..] == [];
  }
}
