/**
 * `Dashboard.tsx`: the recent-activity feed. A superadmin sees the feed
 * filtered by region and then by period; any other viewer sees it filtered
 * by period only. The two helpers accept any record carrying a timestamp and
 * optionally a tenant or a province.
 */
module Dashboard {
  import opened Wrappers
  import opened Seqs
  import opened Criteria
  import opened Model
  import opened Auth

  /** A record fed to the helpers: its timestamp, its tenant if it has one,
      and its own `province` field if it has one. */
  datatype DashboardItem = DashboardItem(timestamp: DateText, tenant: Option<Tenant>, province: Option<string>)

  predicate ItemInPeriod(p: Period, now: int, item: DashboardItem) {
    InPeriod(p, now, Parse(item.timestamp))
  }

  /** The regional test of one record: its tenant's province when it has a
      tenant, otherwise its own province when that is a non-empty string,
      otherwise it passes. */
  predicate ItemInRegion(r: Regional, item: DashboardItem) {
    if item.tenant.Some? then InRegion(r, item.tenant.value.province)
    else if item.province.Some? && item.province.value != "" then InRegion(r, item.province.value)
    else true
  }

  /** `filterDataByPeriod`: the input itself for `ALL`, its recent records otherwise. */
  function FilterDataByPeriod(items: seq<DashboardItem>, p: Period, now: int): (r: seq<DashboardItem>)
    ensures p.AllTime? ==> r == items
    ensures IsSubseq(r, items)
    ensures forall x :: x in r <==> x in items && ItemInPeriod(p, now, x)
    ensures forall x :: x in items ==> multiset(r)[x] == if ItemInPeriod(p, now, x) then multiset(items)[x] else 0
  {
    if p.AllTime? then SubseqRefl(items); items
    else
      var r := Filter(items, x => ItemInPeriod(p, now, x));
      assert forall x :: x in r ==> exists i :: 0 <= i < |r| && r[i] == x;
      r
  }

  /** `filterDataByRegional`: the input itself for `ALL`, the records of the
      chosen province (and the untagged ones) otherwise. */
  function FilterDataByRegional(items: seq<DashboardItem>, reg: Regional): (r: seq<DashboardItem>)
    ensures reg.AllRegions? ==> r == items
    ensures IsSubseq(r, items)
    ensures forall x :: x in r <==> x in items && ItemInRegion(reg, x)
    ensures forall x :: x in items ==> multiset(r)[x] == if ItemInRegion(reg, x) then multiset(items)[x] else 0
  {
    if reg.AllRegions? then SubseqRefl(items); items
    else
      var r := Filter(items, x => ItemInRegion(reg, x));
      assert forall x :: x in r ==> exists i :: 0 <= i < |r| && r[i] == x;
      r
  }

  /** The feed the dashboard renders for this session. */
  function Activities(session: Option<User>, items: seq<DashboardItem>, p: Period, reg: Regional, now: int): (r: seq<DashboardItem>)
    ensures IsSubseq(r, items)
    ensures forall x :: x in r ==> ItemInPeriod(p, now, x)
    ensures IsSuperadmin(session) ==> forall x :: x in r ==> ItemInRegion(reg, x)
  {
    if IsSuperadmin(session) then
      var q := FilterDataByRegional(items, reg);
      var r := FilterDataByPeriod(q, p, now);
      SubseqTrans(r, q, items);
      r
    else FilterDataByPeriod(items, p, now)
  }

  /** The feed holds exactly the records that pass the period test and, for a
      superadmin, the regional test, in their original order. */
  lemma ActivitiesMeaning(session: Option<User>, items: seq<DashboardItem>, p: Period, reg: Regional, now: int)
    ensures IsSubseq(Activities(session, items, p, reg, now), items)
    ensures forall x :: x in Activities(session, items, p, reg, now) <==>
      x in items && ItemInPeriod(p, now, x) && (IsSuperadmin(session) ==> ItemInRegion(reg, x))
    ensures forall x :: x in items ==>
      multiset(Activities(session, items, p, reg, now))[x] ==
        if ItemInPeriod(p, now, x) && (IsSuperadmin(session) ==> ItemInRegion(reg, x)) then multiset(items)[x] else 0
  {
    if IsSuperadmin(session) {
      var r := FilterDataByRegional(items, reg);
      var q := FilterDataByPeriod(r, p, now);
      SubseqTrans(q, r, items);
      forall x | x in items && x !in r
        ensures multiset(q)[x] == 0
      {
        assert x !in q;
      }
    }
  }

  /** Applying the two filters in the other order gives the same feed. */
  lemma FiltersCommute(items: seq<DashboardItem>, p: Period, reg: Regional, now: int)
    ensures FilterDataByPeriod(FilterDataByRegional(items, reg), p, now)
         == FilterDataByRegional(FilterDataByPeriod(items, p, now), reg)
  {
    if !p.AllTime? && !reg.AllRegions? {
      FilterCommutes(items, x => ItemInRegion(reg, x), x => ItemInPeriod(p, now, x));
    }
  }

  /** A record with a tenant is placed by its tenant's province alone; a
      record with neither a tenant nor a non-empty province passes every region. */
  lemma RegionalPrecedence(reg: Regional, item: DashboardItem, other: Option<string>)
    ensures item.tenant.Some? ==> (ItemInRegion(reg, item.(province := other)) <==> ItemInRegion(reg, item))
    ensures item.tenant.None? && (item.province.None? || item.province.value == "") ==> ItemInRegion(reg, item)
  {
  }

  /** For a viewer who is not a superadmin the region selector has no effect. */
  lemma RegionIgnoredBelowSuperadmin(session: Option<User>, items: seq<DashboardItem>, p: Period, r1: Regional, r2: Regional, now: int)
    requires !IsSuperadmin(session)
    ensures Activities(session, items, p, r1, now) == Activities(session, items, p, r2, now)
  {
  }

  /** Widening the period only adds records to the feed, in order. */
  lemma WiderPeriodKeepsActivities(items: seq<DashboardItem>, p: Period, wider: Period, now: int)
    requires Breadth(p) <= Breadth(wider)
    ensures IsSubseq(FilterDataByPeriod(items, p, now), FilterDataByPeriod(items, wider, now))
  {
    if wider.AllTime? {
      var r := FilterDataByPeriod(items, p, now);
      assert FilterDataByPeriod(items, wider, now) == items;
      assert IsSubseq(r, items);
    } else {
      assert !p.AllTime?;
      forall x | x in items && ItemInPeriod(p, now, x)
        ensures ItemInPeriod(wider, now, x)
      {
        WiderPeriodKeeps(p, wider, now, Parse(x.timestamp));
      }
      FilterNarrower(items, x => ItemInPeriod(p, now, x), x => ItemInPeriod(wider, now, x));
    }
  }
}
