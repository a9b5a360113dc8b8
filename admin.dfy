/** The admin read-outs of finance_core/admin.py: an organization's integration health, the
    critical-error filter over the error log and the shortened message column. */
module Admin {
  import opened Common
  import opened Text
  import opened Models
  import opened Ledger
  import MlSync

  const HEALTH_WINDOW: int := 24 * 3600
  const SHORT_ERROR_LENGTH: nat := 50

  /** The log entries of `org` stamped no earlier than 24 hours before `now`. */
  function RecentErrorCount(log: seq<IntegrationErrorLog>, org: OrgId, now: int): nat {
    if log == [] then 0
    else ((if log[0].organization == org && log[0].timestamp >= now - HEALTH_WINDOW then 1 else 0)
          + RecentErrorCount(log[1..], org, now))
  }

  lemma {:induction false} RecentErrorCountAppend(log: seq<IntegrationErrorLog>, e: IntegrationErrorLog, org: OrgId, now: int)
    ensures RecentErrorCount(log + [e], org, now)
         == RecentErrorCount(log, org, now) + (if e.organization == org && e.timestamp >= now - HEALTH_WINDOW then 1 else 0)
    decreases |log|
  {
    if log != [] {
      assert (log + [e])[1..] == log[1..] + [e];
      RecentErrorCountAppend(log[1..], e, org, now);
    }
  }

  datatype Health = Critical(errors: nat) | Healthy | Partial(mlOk: bool, shopeeOk: bool) | NoIntegrations | NoProfile

  /** `OrganizationAdmin.health_status`, reading the profile through its declared related
      name. */
  function HealthStatus(db: Db, org: OrgId, now: int): Health {
    var recent := RecentErrorCount(db.errorLog, org, now);
    if recent > 0 then Critical(recent)
    else if org !in db.profiles then NoProfile
    else
      var p := db.profiles[org];
      var mlOk := Truthy(p.mlAccessToken);
      var shopeeOk := Truthy(p.shopeeAccessToken);
      if mlOk && shopeeOk then Healthy
      else if mlOk || shopeeOk then Partial(mlOk, shopeeOk)
      else NoIntegrations
  }

  /** `OrganizationAdmin.health_status` as written, None marking the exception: without recent
      errors it reads `obj.integrationprofile`, a name the profile relation does not declare
      (its related name is `integration_profile`), and the `AttributeError` escapes the
      `except IntegrationProfile.DoesNotExist`. */
  function HealthStatusAsWritten(db: Db, org: OrgId, now: int): Option<Health> {
    var recent := RecentErrorCount(db.errorLog, org, now);
    if recent > 0 then Some(Critical(recent)) else None
  }

  /** As written, the read-out raises for every organization without recent errors, with or
      without a profile; with recent errors it agrees with the intended read-out. */
  lemma HealthStatusRaises(db: Db, org: OrgId, now: int)
    ensures HealthStatusAsWritten(db, org, now).None? <==> RecentErrorCount(db.errorLog, org, now) == 0
    ensures HealthStatusAsWritten(db, org, now).Some? ==> HealthStatusAsWritten(db, org, now) == Some(HealthStatus(db, org, now))
  {
  }

  /** A fully connected organization with an empty log: the intended badge is Healthy, the
      written one raises. */
  lemma HealthyOrganizationRaises(db: Db, org: OrgId, now: int)
    requires db.errorLog == [] && org in db.profiles
    requires Truthy(db.profiles[org].mlAccessToken) && Truthy(db.profiles[org].shopeeAccessToken)
    ensures HealthStatusAsWritten(db, org, now).None?
    ensures HealthStatus(db, org, now) == Healthy
  {
  }

  /** Recent errors decide alone, whatever the tokens; otherwise the two access tokens do. */
  lemma HealthStatusCases(db: Db, org: OrgId, now: int)
    ensures var h := HealthStatus(db, org, now);
      && (h.Critical? <==> RecentErrorCount(db.errorLog, org, now) > 0)
      && (h.Critical? ==> h.errors == RecentErrorCount(db.errorLog, org, now))
      && (h == NoProfile <==> RecentErrorCount(db.errorLog, org, now) == 0 && org !in db.profiles)
      && (RecentErrorCount(db.errorLog, org, now) == 0 && org in db.profiles ==>
            var ml := Truthy(db.profiles[org].mlAccessToken);
            var sh := Truthy(db.profiles[org].shopeeAccessToken);
            && (h == Healthy <==> ml && sh)
            && (h.Partial? <==> ml != sh)
            && (h.Partial? ==> h.mlOk == ml && h.shopeeOk == sh)
            && (h == NoIntegrations <==> !ml && !sh))
  {
  }

  /** A failure the tasks log for an organization makes it CRITICAL for the next 24 hours. */
  lemma LoggedFailureIsCritical(db: Db, e: IntegrationErrorLog, now: int)
    requires now - HEALTH_WINDOW <= e.timestamp
    ensures HealthStatus(AppendLog(db, e), e.organization, now).Critical?
    ensures HealthStatus(AppendLog(db, e), e.organization, now).errors
         == RecentErrorCount(db.errorLog, e.organization, now) + 1
  {
    RecentErrorCountAppend(db.errorLog, e, e.organization, now);
  }

  /** The text inside the health badge. */
  function HealthText(h: Health): string {
    match h
    case Critical(n) => "CRITICAL (" + NatToString(n) + " Errors)"
    case Healthy => "Healthy"
    case Partial(ml, sh) => "Partial (ML: " + (if ml then "OK" else "Missing") + ", Shopee: " + (if sh then "OK" else "Missing") + ")"
    case NoIntegrations => "No Integrations"
    case NoProfile => "No Profile"
  }

  /** A partial badge names each platform's state. */
  lemma PartialBadge(db: Db, org: OrgId, now: int)
    requires RecentErrorCount(db.errorLog, org, now) == 0 && org in db.profiles
    requires Truthy(db.profiles[org].mlAccessToken) && !Truthy(db.profiles[org].shopeeAccessToken)
    ensures HealthText(HealthStatus(db, org, now)) == "Partial (ML: OK, Shopee: Missing)"
  {
  }

  /** The 'yes' side of the critical-error filter. */
  predicate IsCritical(e: IntegrationErrorLog) {
    ContainsIgnoreCase(e.errorMessage, "token") || ContainsIgnoreCase(e.taskName, "token")
      || ContainsIgnoreCase(e.errorMessage, "401")
  }

  function Select(log: seq<IntegrationErrorLog>, critical: bool): (r: seq<IntegrationErrorLog>)
    ensures forall e :: e in r <==> e in log && IsCritical(e) == critical
  {
    if log == [] then []
    else (if IsCritical(log[0]) == critical then [log[0]] else []) + Select(log[1..], critical)
  }

  /** `CriticalErrorFilter.queryset`: any value other than 'yes' and 'no' leaves the list as
      it is. */
  function CriticalFilter(log: seq<IntegrationErrorLog>, value: Option<string>): seq<IntegrationErrorLog> {
    if value == Some("yes") then Select(log, true)
    else if value == Some("no") then Select(log, false)
    else log
  }

  /** 'yes' and 'no' split the log: each entry lands on exactly one side, and together they
      hold the log's entries with their multiplicities. */
  lemma {:induction false} CriticalFilterPartitions(log: seq<IntegrationErrorLog>)
    ensures multiset(CriticalFilter(log, Some("yes"))) + multiset(CriticalFilter(log, Some("no"))) == multiset(log)
    ensures forall e :: e in CriticalFilter(log, Some("yes")) <==> e in log && IsCritical(e)
    ensures forall e :: e in CriticalFilter(log, Some("no")) <==> e in log && !IsCritical(e)
    decreases |log|
  {
    if log != [] {
      CriticalFilterPartitions(log[1..]);
      assert log == [log[0]] + log[1..];
    }
  }

  lemma ContainsAt(s: string, sub: string, i: nat)
    requires i + |sub| <= |s| && s[i..i + |sub|] == sub
    ensures Contains(s, sub)
    decreases i
  {
    if i > 0 {
      assert s[1..][i - 1..i - 1 + |sub|] == s[i..i + |sub|];
      ContainsAt(s[1..], sub, i - 1);
    }
  }

  /** Every failure the ML token refresh logs is a critical entry: its task name mentions
      the token. */
  lemma MlRefreshFailuresAreCritical(e: IntegrationErrorLog)
    requires e.taskName == MlSync.TASK_REFRESH
    ensures IsCritical(e)
  {
    assert Lower(e.taskName) == "refresh_ml_token";
    assert Lower("token") == "token";
    ContainsAt(Lower(e.taskName), "token", 11);
  }

  /** `short_error`: the message when it has at most 50 characters, otherwise its first 50
      characters and an ellipsis. */
  function ShortError(message: string): (r: string)
    ensures |r| <= SHORT_ERROR_LENGTH + 3
    ensures |message| <= SHORT_ERROR_LENGTH ==> r == message
    ensures |message| > SHORT_ERROR_LENGTH ==> |r| == SHORT_ERROR_LENGTH + 3 && r[..SHORT_ERROR_LENGTH] == message[..SHORT_ERROR_LENGTH] && r[SHORT_ERROR_LENGTH..] == "..."
  {
    if |message| > SHORT_ERROR_LENGTH then message[..SHORT_ERROR_LENGTH] + "..." else message
  }
}
