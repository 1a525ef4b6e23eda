/**
 * `HeavyEquipment.tsx`: the heavy equipment list restricted to active units
 * of the viewer's own cooperative (all cooperatives for a superadmin),
 * filtered by search, status, category, period and (for a superadmin only)
 * region; its status cards; and the buttons each unit offers.
 */
module HeavyEquipment {
  import opened Wrappers
  import opened Text
  import opened Seqs
  import opened Criteria
  import opened Model
  import opened Auth

  datatype EquipmentCriteria = EquipmentCriteria(
    search: string,
    status: Choice<EquipmentStatus>,
    categoryId: Choice<string>,
    period: Period,
    regional: Regional)

  /** `2024-01-01T00:00:00Z`, the date of a unit without a usable first image. */
  const FallbackDate: int := 1704067200000

  /** 2024-01-01 is 54 years of 365 days plus 13 leap days after the epoch. */
  lemma FallbackIsNewYear2024()
    ensures FallbackDate == (54 * 365 + 13) * MsPerDay
  {
  }

  /** `eq.images?.[0]?.uploadedAt || fallback`: the first image's upload date
      when there is a first image with a non-empty date, the fallback otherwise. */
  function PeriodDate(e: EquipmentUnit): (t: Option<int>)
    ensures e.images.Some? && |e.images.value| > 0 && !e.images.value[0].uploadedAt.Blank? ==>
      t == Parse(e.images.value[0].uploadedAt)
    ensures e.images.None? || |e.images.value| == 0 || e.images.value[0].uploadedAt.Blank? ==>
      t == Some(FallbackDate)
    ensures t.None? <==> e.images.Some? && |e.images.value| > 0 && e.images.value[0].uploadedAt.Garbled?
  {
    if e.images.Some? && |e.images.value| > 0 && !e.images.value[0].uploadedAt.Blank? then
      Parse(e.images.value[0].uploadedAt)
    else
      Some(FallbackDate)
  }

  /** The fields the search box looks at. */
  function SearchFields(e: EquipmentUnit): seq<string> {
    [e.name, e.inventoryNumber, e.brand, e.model]
  }

  /** `isSuperadmin || eq.tenant.id === user?.tenant?.id`. */
  predicate InTenantScope(e: EquipmentUnit, session: Option<User>) {
    || IsSuperadmin(session)
    || (session.Some? && session.value.tenant.Some? && e.tenant.id == session.value.tenant.value.id)
  }

  /** The body of the `.filter` callback. */
  predicate Selected(e: EquipmentUnit, c: EquipmentCriteria, now: int, session: Option<User>) {
    && SearchHit(SearchFields(e), c.search)
    && c.status.Admits(e.status)
    && c.categoryId.Admits(e.category.id)
    && InTenantScope(e, session)
    && InPeriod(c.period, now, PeriodDate(e))
    && (IsSuperadmin(session) ==> InRegion(c.regional, e.tenant.province))
    && e.isActive
  }

  /** `filteredEquipment`: the units that pass, in their original order. */
  function FilteredEquipment(es: seq<EquipmentUnit>, c: EquipmentCriteria, now: int, session: Option<User>): (r: seq<EquipmentUnit>)
    ensures IsSubseq(r, es)
    ensures forall e :: e in r <==> e in es && Selected(e, c, now, session)
    ensures forall e :: e in es ==> multiset(r)[e] == if Selected(e, c, now, session) then multiset(es)[e] else 0
  {
    var r := Filter(es, e => Selected(e, c, now, session));
    assert forall e :: e in r ==> exists i :: 0 <= i < |r| && r[i] == e;
    r
  }

  /** The search looks at exactly the name, inventory number, brand and model. */
  lemma SearchFieldsExactly(e: EquipmentUnit, q: string)
    ensures SearchHit(SearchFields(e), q) <==>
      Matches(e.name, q) || Matches(e.inventoryNumber, q) || Matches(e.brand, q) || Matches(e.model, q)
  {
    var f := SearchFields(e);
    assert f[0] == e.name && f[1] == e.inventoryNumber && f[2] == e.brand && f[3] == e.model;
  }

  /** Only active units are listed; below superadmin they all belong to the
      viewer's cooperative, and a viewer without a cooperative sees none. */
  lemma ViewerScope(es: seq<EquipmentUnit>, c: EquipmentCriteria, now: int, session: Option<User>)
    ensures forall e :: e in FilteredEquipment(es, c, now, session) ==> e.isActive
    ensures !IsSuperadmin(session) ==>
      forall e :: e in FilteredEquipment(es, c, now, session) ==>
        session.Some? && session.value.tenant.Some? && e.tenant.id == session.value.tenant.value.id
    ensures !IsSuperadmin(session) && (session.None? || session.value.tenant.None?) ==>
      FilteredEquipment(es, c, now, session) == []
  {
    var r := FilteredEquipment(es, c, now, session);
    if |r| > 0 {
      assert r[0] in r;
    }
  }

  /** For a viewer who is not a superadmin the region selector has no effect. */
  lemma RegionIgnoredBelowSuperadmin(es: seq<EquipmentUnit>, c: EquipmentCriteria, other: Regional, now: int, session: Option<User>)
    requires !IsSuperadmin(session)
    ensures FilteredEquipment(es, c, now, session) == FilteredEquipment(es, c.(regional := other), now, session)
  {
    var d := c.(regional := other);
    FilterAgree(es, e => Selected(e, c, now, session), e => Selected(e, d, now, session));
  }

  /** A unit without a usable first image dates from 2024-01-01: it is listed
      for a period whose window reaches back to that day. */
  lemma UndatedUnitsUseFallback(e: EquipmentUnit, p: Period, now: int)
    requires e.images.None? || |e.images.value| == 0 || e.images.value[0].uploadedAt.Blank?
    ensures InPeriod(p, now, PeriodDate(e)) <==> p.AllTime? || now - Days(p) * MsPerDay <= FallbackDate
  {
  }

  /** Widening the period only adds units, keeping the order of those already shown. */
  lemma WiderPeriodKeepsUnits(es: seq<EquipmentUnit>, c: EquipmentCriteria, wider: Period, now: int, session: Option<User>)
    requires Breadth(c.period) <= Breadth(wider)
    ensures IsSubseq(FilteredEquipment(es, c, now, session), FilteredEquipment(es, c.(period := wider), now, session))
  {
    var w := c.(period := wider);
    forall e | e in es && Selected(e, c, now, session)
      ensures Selected(e, w, now, session)
    {
      WiderPeriodKeeps(c.period, wider, now, PeriodDate(e));
    }
    FilterNarrower(es, e => Selected(e, c, now, session), e => Selected(e, w, now, session));
  }

  /** The status cards. */
  datatype EquipmentStats = EquipmentStats(total: nat, available: nat, inUse: nat, maintenance: nat)

  predicate IsAvailable(e: EquipmentUnit) {
    e.status == Available
  }

  predicate IsInUse(e: EquipmentUnit) {
    e.status == InUse
  }

  predicate IsUnderMaintenance(e: EquipmentUnit) {
    e.status == Maintenance
  }

  predicate IsOutOfService(e: EquipmentUnit) {
    e.status == OutOfService
  }

  function Statistics(r: seq<EquipmentUnit>): (st: EquipmentStats)
    ensures st.total == |r|
    ensures st.available == 0 <==> forall i :: 0 <= i < |r| ==> r[i].status != Available
    ensures st.inUse == 0 <==> forall i :: 0 <= i < |r| ==> r[i].status != InUse
    ensures st.maintenance == 0 <==> forall i :: 0 <= i < |r| ==> r[i].status != Maintenance
  {
    FilterEmpty(r, IsAvailable);
    FilterEmpty(r, IsInUse);
    FilterEmpty(r, IsUnderMaintenance);
    EquipmentStats(|r|, |Filter(r, IsAvailable)|, |Filter(r, IsInUse)|, |Filter(r, IsUnderMaintenance)|)
  }

  /** The three status cards and the OUT_OF_SERVICE units no card shows add up
      to the total; so the cards add up to the total exactly when no listed
      unit is out of service. */
  lemma StatusCardsPartition(r: seq<EquipmentUnit>)
    ensures var st := Statistics(r);
            && st.available + st.inUse + st.maintenance + |Filter(r, IsOutOfService)| == st.total
            && (st.available + st.inUse + st.maintenance == st.total <==> forall i :: 0 <= i < |r| ==> !IsOutOfService(r[i]))
  {
    forall i | 0 <= i < |r|
      ensures Flags(IsAvailable(r[i]), IsInUse(r[i]), IsUnderMaintenance(r[i]), IsOutOfService(r[i])) == 1
    {
      match r[i].status
      case Available =>
      case InUse =>
      case Maintenance =>
      case OutOfService =>
    }
    SumOfFourParts(r, IsAvailable, IsInUse, IsUnderMaintenance, IsOutOfService, One);
    SumOfOnes(r);
    SumOfOnes(Filter(r, IsAvailable));
    SumOfOnes(Filter(r, IsInUse));
    SumOfOnes(Filter(r, IsUnderMaintenance));
    SumOfOnes(Filter(r, IsOutOfService));
    if exists i :: 0 <= i < |r| && IsOutOfService(r[i]) {
      var i :| 0 <= i < |r| && IsOutOfService(r[i]);
      assert r[i] in Filter(r, IsOutOfService);
    }
  }

  /** The buttons on a unit: details, schedule maintenance, edit. */
  datatype EquipmentAction = ViewDetails | ScheduleMaintenance | EditUnit

  /** The buttons every layout renders for a unit. */
  function OfferedActions(e: EquipmentUnit): (acts: set<EquipmentAction>)
    ensures ViewDetails in acts && EditUnit in acts
    ensures ScheduleMaintenance in acts <==> e.status == Available
  {
    {ViewDetails, EditUnit} + (if e.status == Available then {ScheduleMaintenance} else {})
  }

  predicate OffersMaintenance(e: EquipmentUnit) {
    ScheduleMaintenance in OfferedActions(e)
  }

  /** The units offering "schedule maintenance" are exactly those counted on
      the "Tersedia" card. */
  lemma MaintenanceButtonsMatchAvailableCard(r: seq<EquipmentUnit>)
    ensures |Filter(r, OffersMaintenance)| == Statistics(r).available
  {
    FilterAgree(r, OffersMaintenance, IsAvailable);
  }
}
