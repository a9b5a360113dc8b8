/** The Mercado Livre side of finance_core/utils.py: refreshing the access token
    (`refresh_ml_token`) and the per-profile fetch loop (`fetch_and_process_ml_orders`) with
    its error isolation. The token endpoint and the order search are parameters. */
module MlSync {
  import opened Common
  import opened Models
  import opened Ledger

  /** A token is refreshed unless it expires more than ten minutes from now. */
  const REFRESH_MARGIN: int := 600
  const TASK_REFRESH: string := "refresh_ml_token"
  const TASK_FETCH: string := "fetch_and_process_ml_orders"
  const REFRESH_ERROR_PREFIX: string := "Error refreshing ML token: "
  const FETCH_ERROR_PREFIX: string := "Error fetching ML orders: "

  /** The decoded token response; None marks a key absent from the JSON body. */
  datatype MlTokenPayload = MlTokenPayload(
    accessToken: Option<string>,
    refreshToken: Option<string>,
    expiresIn: Option<int>)

  function MlLog(org: OrgId, task: string, message: string, now: int): IntegrationErrorLog {
    IntegrationErrorLog(org, ML, task, message, now)
  }

  /** Whether `refresh_ml_token` goes to the token endpoint: a refresh token is present and
      the expiry is unknown or at most ten minutes away. */
  predicate RefreshDue(p: IntegrationProfile, now: int) {
    Truthy(p.mlRefreshToken) && !(p.mlTokenExpiry.Some? && p.mlTokenExpiry.value > now + REFRESH_MARGIN)
  }

  /** The refresh is due and the endpoint answered with all three keys. */
  predicate RefreshComplete(p: IntegrationProfile, now: int, reply: Remote<MlTokenPayload>) {
    RefreshDue(p, now) && reply.Ok?
      && reply.payload.accessToken.Some? && reply.payload.refreshToken.Some? && reply.payload.expiresIn.Some?
  }

  /** What one refresh leaves behind: the in-memory profile object, whether it was saved,
      and the error log entry it created, if any. */
  datatype RefreshOutcome = RefreshOutcome(profile: IntegrationProfile, saved: bool, log: Option<IntegrationErrorLog>)

  /** `refresh_ml_token(profile)` as written: the three fields are assigned one after the
      other, so a response lacking a later key leaves the earlier ones assigned in memory
      (and not saved) when the `KeyError` is caught. */
  function RefreshMlTokenStep(p: IntegrationProfile, now: int, reply: Remote<MlTokenPayload>): (o: RefreshOutcome)
    ensures !RefreshDue(p, now) ==> o == RefreshOutcome(p, false, None)
    ensures o.saved <==> RefreshComplete(p, now, reply)
    ensures o.saved ==> o.profile == p.(mlAccessToken := reply.payload.accessToken,
                                        mlRefreshToken := reply.payload.refreshToken,
                                        mlTokenExpiry := Some(now + reply.payload.expiresIn.value))
    ensures o.log.Some? <==> RefreshDue(p, now) && !o.saved
    ensures o.log.Some? ==> (o.log.value.organization == p.organization && o.log.value.platform == ML
      && o.log.value.taskName == TASK_REFRESH && o.log.value.timestamp == now)
    ensures o.profile.organization == p.organization
    ensures !o.saved ==> o.profile.mlTokenExpiry == p.mlTokenExpiry
  {
    if !RefreshDue(p, now) then RefreshOutcome(p, false, None)
    else match reply
      case Err(m) => RefreshOutcome(p, false, Some(MlLog(p.organization, TASK_REFRESH, REFRESH_ERROR_PREFIX + m, now)))
      case Ok(d) =>
        if d.accessToken.None? then
          RefreshOutcome(p, false, Some(MlLog(p.organization, TASK_REFRESH, REFRESH_ERROR_PREFIX + KeyErrorMessage("access_token"), now)))
        else
          var p1 := p.(mlAccessToken := d.accessToken);
          if d.refreshToken.None? then
            RefreshOutcome(p1, false, Some(MlLog(p.organization, TASK_REFRESH, REFRESH_ERROR_PREFIX + KeyErrorMessage("refresh_token"), now)))
          else
            var p2 := p1.(mlRefreshToken := d.refreshToken);
            if d.expiresIn.None? then
              RefreshOutcome(p2, false, Some(MlLog(p.organization, TASK_REFRESH, REFRESH_ERROR_PREFIX + KeyErrorMessage("expires_in"), now)))
            else
              RefreshOutcome(p2.(mlTokenExpiry := Some(now + d.expiresIn.value)), true, None)
  }

  /** The same refresh with the fields assigned only once the whole response has been read,
      so a failed refresh leaves the in-memory object as it was. */
  function RefreshMlTokenAtomicStep(p: IntegrationProfile, now: int, reply: Remote<MlTokenPayload>): (o: RefreshOutcome)
    ensures o.saved <==> RefreshComplete(p, now, reply)
    ensures !o.saved ==> o.profile == p
    ensures o.saved ==> o.profile == p.(mlAccessToken := reply.payload.accessToken,
                                        mlRefreshToken := reply.payload.refreshToken,
                                        mlTokenExpiry := Some(now + reply.payload.expiresIn.value))
  {
    var o := RefreshMlTokenStep(p, now, reply);
    if o.saved then o else o.(profile := p)
  }

  /** The store after a refresh: the saved profile written back, or the log entry appended. */
  function ApplyRefresh(db: Db, o: RefreshOutcome): Db {
    if o.saved then PutProfile(db, o.profile)
    else if o.log.Some? then AppendLog(db, o.log.value)
    else db
  }

  /** The stored state cannot tell the two refreshes apart; they differ only in the object
      the caller keeps using. */
  lemma AtomicRefreshSameStore(db: Db, p: IntegrationProfile, now: int, reply: Remote<MlTokenPayload>)
    ensures ApplyRefresh(db, RefreshMlTokenAtomicStep(p, now, reply)) == ApplyRefresh(db, RefreshMlTokenStep(p, now, reply))
  {
  }

  /** A missing `refresh_token` key leaves the new access token on the unsaved object. */
  lemma PartialAssignmentExample(p: IntegrationProfile, now: int)
    requires p.mlRefreshToken == Some("r-old") && p.mlAccessToken == Some("a-old") && p.mlTokenExpiry.None?
    ensures RefreshMlTokenStep(p, now, Ok(MlTokenPayload(Some("a-new"), None, Some(21600)))).profile.mlAccessToken == Some("a-new")
    ensures !RefreshMlTokenStep(p, now, Ok(MlTokenPayload(Some("a-new"), None, Some(21600)))).saved
    ensures RefreshMlTokenAtomicStep(p, now, Ok(MlTokenPayload(Some("a-new"), None, Some(21600)))).profile.mlAccessToken == Some("a-old")
  {
  }

  /** A refresh of the stored profile either writes the three new token fields, or keeps the
      stored profiles and appends exactly one ML entry, or (not due) changes nothing. */
  lemma RefreshEffect(db: Db, now: int, reply: Remote<MlTokenPayload>, org: OrgId)
    requires Valid(db) && org in db.profiles
    ensures var p := db.profiles[org];
      var db' := ApplyRefresh(db, RefreshMlTokenStep(p, now, reply));
      && Valid(db')
      && db'.sales == db.sales && db'.logistics == db.logistics && db'.taxProfiles == db.taxProfiles
      && (!RefreshDue(p, now) ==> db' == db)
      && (RefreshMlTokenStep(p, now, reply).saved ==>
            db'.errorLog == db.errorLog
            && db'.profiles == db.profiles[org := p.(mlAccessToken := reply.payload.accessToken,
                 mlRefreshToken := reply.payload.refreshToken,
                 mlTokenExpiry := Some(now + reply.payload.expiresIn.value))])
      && (RefreshDue(p, now) && !RefreshMlTokenStep(p, now, reply).saved ==>
            db'.profiles == db.profiles && |db'.errorLog| == |db.errorLog| + 1
            && db'.errorLog[..|db.errorLog|] == db.errorLog
            && db'.errorLog[|db.errorLog|].platform == ML && db'.errorLog[|db.errorLog|].taskName == TASK_REFRESH)
  {
  }

  /** `refresh_ml_token(profile)` against the store, with the corrected assignment: the new
      fields are collected first and given to the caller's object only with the save. */
  method RefreshMlToken(store: Store, p: IntegrationProfile, now: int, reply: Remote<MlTokenPayload>)
    returns (q: IntegrationProfile)
    modifies store
    ensures q == RefreshMlTokenAtomicStep(p, now, reply).profile
    ensures store.State() == ApplyRefresh(old(store.State()), RefreshMlTokenAtomicStep(p, now, reply))
  {
    q := p;
    if !Truthy(q.mlRefreshToken) {
      return;
    }
    if q.mlTokenExpiry.Some? && q.mlTokenExpiry.value > now + REFRESH_MARGIN {
      return;
    }
    if reply.Err? {
      store.LogError(MlLog(q.organization, TASK_REFRESH, REFRESH_ERROR_PREFIX + reply.message, now));
      return;
    }
    var d := reply.payload;
    if d.accessToken.None? {
      store.LogError(MlLog(q.organization, TASK_REFRESH, REFRESH_ERROR_PREFIX + KeyErrorMessage("access_token"), now));
      return;
    }
    var next := q.(mlAccessToken := d.accessToken);
    if d.refreshToken.None? {
      store.LogError(MlLog(q.organization, TASK_REFRESH, REFRESH_ERROR_PREFIX + KeyErrorMessage("refresh_token"), now));
      return;
    }
    next := next.(mlRefreshToken := d.refreshToken);
    if d.expiresIn.None? {
      store.LogError(MlLog(q.organization, TASK_REFRESH, REFRESH_ERROR_PREFIX + KeyErrorMessage("expires_in"), now));
      return;
    }
    next := next.(mlTokenExpiry := Some(now + d.expiresIn.value));
    store.SaveProfile(next);
    q := next;
  }

  /** The remote side of one profile's fetch: the token endpoint's reply and the outcome of
      the order search together with the handling of its results (an `Err` is any exception
      raised by either). */
  datatype MlReplies = MlReplies(refresh: Remote<MlTokenPayload>, search: Remote<()>)

  /** The queryset filter `ml_access_token__isnull=False` (an empty token passes). */
  predicate MlEligible(p: IntegrationProfile) {
    p.mlAccessToken.Some?
  }

  /** The log entries one profile's iteration appends: the refresh's, then the fetch's. */
  function ProfileEntries(p: IntegrationProfile, now: int, r: MlReplies): seq<IntegrationErrorLog> {
    var o := RefreshMlTokenStep(p, now, r.refresh);
    (if o.log.Some? then [o.log.value] else [])
      + (if r.search.Err? then [MlLog(p.organization, TASK_FETCH, FETCH_ERROR_PREFIX + r.search.message, now)] else [])
  }

  /** One iteration of the loop: refresh, then the search; an exception is logged and ends
      only this profile's iteration. */
  function MlFetchProfile(db: Db, p: IntegrationProfile, now: int, r: MlReplies): Db {
    var db1 := ApplyRefresh(db, RefreshMlTokenStep(p, now, r.refresh));
    if r.search.Err? then AppendLog(db1, MlLog(p.organization, TASK_FETCH, FETCH_ERROR_PREFIX + r.search.message, now))
    else db1
  }

  /** The loop over the profiles listed in `order`, as they were when the queryset was read
      (`snap`). */
  function MlFetchAll(db: Db, snap: map<OrgId, IntegrationProfile>, order: seq<OrgId>, now: int,
                      replies: OrgId -> MlReplies): Db
    requires forall k :: 0 <= k < |order| ==> order[k] in snap
    decreases |order|
  {
    if order == [] then db
    else
      var db1 := MlFetchAll(db, snap, order[..|order| - 1], now, replies);
      var o := order[|order| - 1];
      if MlEligible(snap[o]) then MlFetchProfile(db1, snap[o], now, replies(o)) else db1
  }

  /** The entries the whole loop appends, profile by profile in queryset order. */
  function MlFetchEntries(snap: map<OrgId, IntegrationProfile>, order: seq<OrgId>, now: int,
                          replies: OrgId -> MlReplies): seq<IntegrationErrorLog>
    requires forall k :: 0 <= k < |order| ==> order[k] in snap
    decreases |order|
  {
    if order == [] then []
    else
      var o := order[|order| - 1];
      MlFetchEntries(snap, order[..|order| - 1], now, replies)
        + (if MlEligible(snap[o]) then ProfileEntries(snap[o], now, replies(o)) else [])
  }

  /** The loop only appends to the log, exactly the per-profile entries in order, and writes
      no sales, rules or tax profiles. */
  lemma {:induction false} MlFetchAllEffect(db: Db, snap: map<OrgId, IntegrationProfile>, order: seq<OrgId>,
                                            now: int, replies: OrgId -> MlReplies)
    requires forall k :: 0 <= k < |order| ==> order[k] in snap
    requires forall k :: 0 <= k < |order| ==> snap[order[k]].organization == order[k]
    requires Valid(db)
    ensures var db' := MlFetchAll(db, snap, order, now, replies);
      && Valid(db')
      && db'.errorLog == db.errorLog + MlFetchEntries(snap, order, now, replies)
      && db'.sales == db.sales && db'.logistics == db.logistics && db'.taxProfiles == db.taxProfiles
      && db'.nextSaleId == db.nextSaleId
    decreases |order|
  {
    if order != [] {
      var pre := order[..|order| - 1];
      MlFetchAllEffect(db, snap, pre, now, replies);
      var db1 := MlFetchAll(db, snap, pre, now, replies);
      var o := order[|order| - 1];
      if MlEligible(snap[o]) {
        MlFetchProfileEffect(db1, snap[o], now, replies(o));
        var pe := ProfileEntries(snap[o], now, replies(o));
        assert db1.errorLog + pe == db.errorLog + (MlFetchEntries(snap, pre, now, replies) + pe);
      }
    }
  }

  /** One iteration appends that profile's entries and writes no sales, rules or tax
      profiles. */
  lemma MlFetchProfileEffect(db: Db, p: IntegrationProfile, now: int, r: MlReplies)
    requires Valid(db)
    ensures var db' := MlFetchProfile(db, p, now, r);
      && Valid(db')
      && db'.errorLog == db.errorLog + ProfileEntries(p, now, r)
      && db'.sales == db.sales && db'.logistics == db.logistics && db'.taxProfiles == db.taxProfiles
      && db'.nextSaleId == db.nextSaleId
  {
    var out := RefreshMlTokenStep(p, now, r.refresh);
    ApplyRefreshEffect(db, out);
    var a := if out.log.Some? then [out.log.value] else [];
    var b := if r.search.Err? then [MlLog(p.organization, TASK_FETCH, FETCH_ERROR_PREFIX + r.search.message, now)] else [];
    assert ProfileEntries(p, now, r) == a + b;
    assert db.errorLog + a + b == db.errorLog + (a + b);
  }

  /** Writing back a refresh outcome that logs only when it does not save. */
  lemma ApplyRefreshEffect(db: Db, o: RefreshOutcome)
    requires Valid(db) && (o.saved ==> o.log.None?)
    ensures var db' := ApplyRefresh(db, o);
      && Valid(db')
      && db'.errorLog == db.errorLog + (if o.log.Some? then [o.log.value] else [])
      && db'.sales == db.sales && db'.logistics == db.logistics && db'.taxProfiles == db.taxProfiles
      && db'.nextSaleId == db.nextSaleId
  {
  }

  /** Error isolation: every listed profile whose search fails gets its own fetch entry,
      whatever happens to the profiles before and after it. */
  lemma {:induction false} EveryFailureLogged(snap: map<OrgId, IntegrationProfile>, order: seq<OrgId>, now: int,
                                              replies: OrgId -> MlReplies, i: int)
    requires forall k :: 0 <= k < |order| ==> order[k] in snap
    requires 0 <= i < |order| && MlEligible(snap[order[i]]) && replies(order[i]).search.Err?
    ensures MlLog(snap[order[i]].organization, TASK_FETCH, FETCH_ERROR_PREFIX + replies(order[i]).search.message, now)
            in MlFetchEntries(snap, order, now, replies)
    decreases |order|
  {
    var e := MlLog(snap[order[i]].organization, TASK_FETCH, FETCH_ERROR_PREFIX + replies(order[i]).search.message, now);
    var pre := order[..|order| - 1];
    if i == |order| - 1 {
      var pe := ProfileEntries(snap[order[i]], now, replies(order[i]));
      assert e == pe[|pe| - 1];
      assert e in pe;
    } else {
      assert pre[i] == order[i];
      EveryFailureLogged(snap, pre, now, replies, i);
    }
  }

  /** Every entry the loop appends belongs to a listed, eligible profile and is an ML entry. */
  lemma {:induction false} EntriesFromEligibleProfiles(snap: map<OrgId, IntegrationProfile>, order: seq<OrgId>,
                                                       now: int, replies: OrgId -> MlReplies)
    requires forall k :: 0 <= k < |order| ==> order[k] in snap
    ensures forall e :: e in MlFetchEntries(snap, order, now, replies) ==>
      e.platform == ML && e.timestamp == now
      && exists k :: 0 <= k < |order| && MlEligible(snap[order[k]]) && e.organization == snap[order[k]].organization
    decreases |order|
  {
    if order != [] {
      var pre := order[..|order| - 1];
      EntriesFromEligibleProfiles(snap, pre, now, replies);
      var o := order[|order| - 1];
      forall e | e in MlFetchEntries(snap, order, now, replies)
        ensures e.platform == ML && e.timestamp == now
          && exists k :: 0 <= k < |order| && MlEligible(snap[order[k]]) && e.organization == snap[order[k]].organization
      {
        if e in MlFetchEntries(snap, pre, now, replies) {
          var k :| 0 <= k < |pre| && MlEligible(snap[pre[k]]) && e.organization == snap[pre[k]].organization;
          assert order[k] == pre[k];
        } else {
          assert MlEligible(snap[o]) && e in ProfileEntries(snap[o], now, replies(o));
          assert order[|order| - 1] == o;
        }
      }
    }
  }

  /** `fetch_and_process_ml_orders()`: `order` lists every stored profile once, in the order
      the queryset returns them. */
  method FetchAndProcessMlOrders(store: Store, order: seq<OrgId>, now: int, replies: OrgId -> MlReplies)
    requires forall k :: 0 <= k < |order| ==> order[k] in store.profiles
    modifies store
    ensures store.State() == MlFetchAll(old(store.State()), old(store.profiles), order, now, replies)
  {
    var snap := store.profiles;
    var i := 0;
    while i < |order|
      invariant 0 <= i <= |order|
      invariant forall k :: 0 <= k < |order| ==> order[k] in snap
      invariant store.State() == MlFetchAll(old(store.State()), snap, order[..i], now, replies)
    {
      var o := order[i];
      assert order[..i + 1][..i] == order[..i];
      var p := snap[o];
      if p.mlAccessToken.Some? {
        var r := replies(o);
        var _ := RefreshMlToken(store, p, now, r.refresh);
        if r.search.Err? {
          store.LogError(MlLog(p.organization, TASK_FETCH, FETCH_ERROR_PREFIX + r.search.message, now));
        }
      }
      i := i + 1;
    }
    assert order[..|order|] == order;
  }
}
