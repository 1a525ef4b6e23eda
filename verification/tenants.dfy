/**
 * `TenantManagement.tsx`: the cooperative list filtered by search, status,
 * period and region (the region filter applies for every viewer), and the
 * four statistics cards computed from the filtered list.
 */
module Tenants {
  import opened Wrappers
  import opened Text
  import opened Seqs
  import opened Criteria
  import opened Model

  datatype TenantCriteria = TenantCriteria(
    search: string,
    status: Choice<TenantStatus>,
    period: Period,
    regional: Regional)

  /** The fields the search box looks at. */
  function SearchFields(t: Tenant): seq<string> {
    [t.name, t.code, t.city, t.province]
  }

  predicate Selected(t: Tenant, c: TenantCriteria, now: int) {
    && SearchHit(SearchFields(t), c.search)
    && c.status.Admits(t.status)
    && InPeriod(c.period, now, Parse(t.updatedAt))
    && InRegion(c.regional, t.province)
  }

  /** `filteredTenants`: the tenants that pass, in their original order. */
  function FilteredTenants(ts: seq<Tenant>, c: TenantCriteria, now: int): (r: seq<Tenant>)
    ensures IsSubseq(r, ts)
    ensures forall t :: t in r <==> t in ts && Selected(t, c, now)
    ensures forall t :: t in ts ==> multiset(r)[t] == if Selected(t, c, now) then multiset(ts)[t] else 0
  {
    var r := Filter(ts, t => Selected(t, c, now));
    assert forall t :: t in r ==> exists i :: 0 <= i < |r| && r[i] == t;
    r
  }

  /** The search looks at exactly the name, code, city and province. */
  lemma SearchFieldsExactly(t: Tenant, q: string)
    ensures SearchHit(SearchFields(t), q) <==>
      Matches(t.name, q) || Matches(t.code, q) || Matches(t.city, q) || Matches(t.province, q)
  {
    var f := SearchFields(t);
    assert f[0] == t.name && f[1] == t.code && f[2] == t.city && f[3] == t.province;
  }

  /** With an empty query and every other criterion at `ALL`, nothing is hidden. */
  lemma NeutralCriteriaKeepAll(ts: seq<Tenant>, now: int)
    ensures FilteredTenants(ts, TenantCriteria("", Any, AllTime, AllRegions), now) == ts
  {
    var c := TenantCriteria("", Any, AllTime, AllRegions);
    forall t | t in ts
      ensures Selected(t, c, now)
    {
      EmptyQueryHits(SearchFields(t));
    }
    FilterKeepsAll(ts, t => Selected(t, c, now));
  }

  /** Widening the period only adds tenants, keeping the order of those already shown. */
  lemma WiderPeriodKeepsTenants(ts: seq<Tenant>, c: TenantCriteria, wider: Period, now: int)
    requires Breadth(c.period) <= Breadth(wider)
    ensures IsSubseq(FilteredTenants(ts, c, now), FilteredTenants(ts, c.(period := wider), now))
  {
    var w := c.(period := wider);
    forall t | t in ts && Selected(t, c, now)
      ensures Selected(t, w, now)
    {
      WiderPeriodKeeps(c.period, wider, now, Parse(t.updatedAt));
    }
    FilterNarrower(ts, t => Selected(t, c, now), t => Selected(t, w, now));
  }

  /** A tenant whose province is not one of the eight named ones is listed
      only while the region filter is `ALL`. */
  lemma UnknownProvinceHidden(ts: seq<Tenant>, c: TenantCriteria, now: int, t: Tenant)
    requires !KnownProvince(t.province)
    requires c.regional.Region?
    ensures t !in FilteredTenants(ts, c, now)
  {
    UnknownProvinceOnlyAll(c.regional, t.province);
  }

  /** The statistics cards: the number of tenants listed, the number of them
      that are ACTIVE, and their member and equipment totals. */
  datatype TenantStats = TenantStats(total: nat, active: nat, members: int, equipment: int)

  predicate IsActive(t: Tenant) {
    t.status == Active
  }

  function Members(t: Tenant): int {
    t.totalMembers
  }

  function EquipmentCount(t: Tenant): int {
    t.totalEquipment
  }

  function Statistics(r: seq<Tenant>): (st: TenantStats)
    ensures st.total == |r| && st.active <= st.total
    ensures st.active == 0 <==> forall i :: 0 <= i < |r| ==> r[i].status != Active
    ensures (forall i :: 0 <= i < |r| ==> r[i].totalMembers >= 0) ==> st.members >= 0
    ensures (forall i :: 0 <= i < |r| ==> r[i].totalEquipment >= 0) ==> st.equipment >= 0
  {
    FilterEmpty(r, IsActive);
    TenantStats(|r|, |Filter(r, IsActive)|, Sum(r, Members), Sum(r, EquipmentCount))
  }

  /** The "Aktif" card over the `ALL` status list equals the "Total" card once
      the status filter is set to ACTIVE. */
  lemma ActiveCardMatchesActiveFilter(ts: seq<Tenant>, c: TenantCriteria, now: int)
    ensures Statistics(FilteredTenants(ts, c.(status := Any), now)).active
         == Statistics(FilteredTenants(ts, c.(status := Only(Active)), now)).total
  {
    var a := c.(status := Any);
    var o := c.(status := Only(Active));
    var pa := t => Selected(t, a, now);
    var po := t => Selected(t, o, now);
    forall t | t in ts
      ensures pa(t) && IsActive(t) <==> po(t)
    {
    }
    FilterThenFilter(ts, pa, IsActive, po);
  }

  /** With non-negative tenant figures, the member and equipment cards never
      exceed the totals over every tenant, whatever the criteria. */
  lemma CardsBoundedByAllTenants(ts: seq<Tenant>, c: TenantCriteria, now: int)
    requires forall t :: t in ts ==> t.totalMembers >= 0 && t.totalEquipment >= 0
    ensures var st := Statistics(FilteredTenants(ts, c, now));
            && 0 <= st.members <= Sum(ts, Members)
            && 0 <= st.equipment <= Sum(ts, EquipmentCount)
            && st.active <= st.total <= |ts|
  {
    var p := t => Selected(t, c, now);
    var r := FilteredTenants(ts, c, now);
    SumOfPartBounded(ts, p, Members);
    SumOfPartBounded(ts, p, EquipmentCount);
    assert forall i :: 0 <= i < |r| ==> r[i] in ts;
  }
}
