/** The record store the core runs against: one map per table, keyed by the table's
    uniqueness key, and the integration error log, which is only ever appended to. */
module Ledger {
  import opened Common
  import opened Models
  import Margin

  datatype Db = Db(
    taxProfiles: map<OrgId, TaxProfile>,
    profiles: map<OrgId, IntegrationProfile>,
    logistics: map<LogisticsKey, LogisticsCost>,
    sales: map<SaleKey, SaleTransaction>,
    errorLog: seq<IntegrationErrorLog>,
    nextSaleId: nat)

  /** The uniqueness constraints: every row is filed under its own key (so no two rows share
      a key), one tax profile and one integration profile per organization, and sale
      primary keys are distinct and below the next id to hand out. */
  predicate Valid(db: Db) {
    && (forall o :: o in db.taxProfiles ==> db.taxProfiles[o].organization == o)
    && (forall o :: o in db.profiles ==> db.profiles[o].organization == o)
    && (forall k :: k in db.logistics ==> LogisticsKeyOf(db.logistics[k]) == k)
    && (forall k :: k in db.sales ==> SaleKeyOf(db.sales[k]) == k && db.sales[k].id < db.nextSaleId)
    && (forall k1, k2 :: k1 in db.sales && k2 in db.sales && k1 != k2 ==> db.sales[k1].id != db.sales[k2].id)
  }

  /** `SaleTransaction.objects.get_or_create(<key>, defaults=...)`: the existing row when the key
      is present, otherwise a new row built from the defaults under that key. */
  function GetOrCreate(db: Db, key: SaleKey, defaults: SaleTransaction): (r: (Db, SaleTransaction, bool))
    ensures key in r.0.sales && r.0.sales[key] == r.1
    ensures r.2 <==> key !in db.sales
    ensures key in db.sales ==> r.0 == db
    ensures key !in db.sales ==>
      && r.0.sales == db.sales[key := r.1]
      && r.1 == defaults.(id := db.nextSaleId, organization := key.organization,
                          externalId := key.externalId, platform := key.platform)
      && r.0 == db.(sales := r.0.sales, nextSaleId := db.nextSaleId + 1)
  {
    if key in db.sales then (db, db.sales[key], false)
    else
      var t := defaults.(id := db.nextSaleId, organization := key.organization,
                         externalId := key.externalId, platform := key.platform);
      (db.(sales := db.sales[key := t], nextSaleId := db.nextSaleId + 1), t, true)
  }

  /** `get_or_create` keeps the uniqueness constraints and never adds a second row for a key. */
  lemma GetOrCreateKeepsValid(db: Db, key: SaleKey, defaults: SaleTransaction)
    requires Valid(db)
    ensures Valid(GetOrCreate(db, key, defaults).0)
    ensures GetOrCreate(db, key, defaults).0.sales.Keys == db.sales.Keys + {key}
  {
  }

  function TaxProfileOf(db: Db, org: OrgId): Option<TaxProfile> {
    if org in db.taxProfiles then Some(db.taxProfiles[org]) else None
  }

  /** `calculate_net_margin(transaction)` followed by `transaction.save()`. */
  function RecordNetMargin(db: Db, key: SaleKey): (r: Db)
    requires key in db.sales
    ensures r.sales.Keys == db.sales.Keys
    ensures r.sales[key] == Margin.WithNetMargin(db.sales[key], TaxProfileOf(db, db.sales[key].organization))
    ensures forall k :: k in db.sales && k != key ==> r.sales[k] == db.sales[k]
    ensures r.(sales := db.sales) == db
  {
    var t := db.sales[key];
    db.(sales := db.sales[key := Margin.WithNetMargin(t, TaxProfileOf(db, t.organization))])
  }

  /** Recording a margin changes only that row's margin. */
  lemma RecordNetMarginKeepsValid(db: Db, key: SaleKey)
    requires Valid(db) && key in db.sales
    ensures Valid(RecordNetMargin(db, key))
    ensures RecordNetMargin(db, key).sales.Keys == db.sales.Keys
  {
  }

  function AppendLog(db: Db, entry: IntegrationErrorLog): Db {
    db.(errorLog := db.errorLog + [entry])
  }

  /** `profile.save()`: the profile row of the object's organization becomes the object. */
  function PutProfile(db: Db, p: IntegrationProfile): Db {
    db.(profiles := db.profiles[p.organization := p])
  }

  /** Saving an existing organization's profile keeps the store valid and its set of profiles. */
  lemma PutProfileKeepsValid(db: Db, p: IntegrationProfile)
    requires Valid(db) && p.organization in db.profiles
    ensures Valid(PutProfile(db, p))
    ensures PutProfile(db, p).profiles.Keys == db.profiles.Keys
  {
  }

  /** The record store as mutable state. */
  class Store {
    var taxProfiles: map<OrgId, TaxProfile>
    var profiles: map<OrgId, IntegrationProfile>
    var logistics: map<LogisticsKey, LogisticsCost>
    var sales: map<SaleKey, SaleTransaction>
    var errorLog: seq<IntegrationErrorLog>
    var nextSaleId: nat

    function State(): Db
      reads this
    {
      Db(taxProfiles, profiles, logistics, sales, errorLog, nextSaleId)
    }

    constructor (db: Db)
      ensures State() == db
    {
      taxProfiles, profiles, logistics := db.taxProfiles, db.profiles, db.logistics;
      sales, errorLog, nextSaleId := db.sales, db.errorLog, db.nextSaleId;
    }

    method GetOrCreateSale(key: SaleKey, defaults: SaleTransaction) returns (t: SaleTransaction, created: bool)
      modifies this
      ensures (State(), t, created) == GetOrCreate(old(State()), key, defaults)
    {
      if key in sales {
        t, created := sales[key], false;
      } else {
        t := defaults.(id := nextSaleId, organization := key.organization,
                       externalId := key.externalId, platform := key.platform);
        sales := sales[key := t];
        nextSaleId := nextSaleId + 1;
        created := true;
      }
    }

    /** `calculate_net_margin`: computes the margin, stores it on the row and returns it. */
    method CalculateNetMargin(key: SaleKey) returns (m: real)
      requires key in sales
      modifies this
      ensures State() == RecordNetMargin(old(State()), key)
      ensures m == Margin.NetMargin(old(sales)[key], TaxProfileOf(old(State()), old(sales)[key].organization))
    {
      var t := sales[key];
      var profile := if t.organization in taxProfiles then Some(taxProfiles[t.organization]) else None;
      m := Margin.NetMargin(t, profile);
      sales := sales[key := t.(netMargin := Some(m))];
    }

    /** `IntegrationErrorLog.objects.create(...)`. */
    method LogError(entry: IntegrationErrorLog)
      modifies this
      ensures State() == AppendLog(old(State()), entry)
    {
      errorLog := errorLog + [entry];
    }

    method SaveProfile(p: IntegrationProfile)
      modifies this
      ensures State() == PutProfile(old(State()), p)
    {
      profiles := profiles[p.organization := p];
    }
  }
}
