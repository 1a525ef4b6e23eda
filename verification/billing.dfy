/**
 * `BillingManagement.tsx`: the invoice list filtered by search, status,
 * tenant, period and region (the region filter applies for every role),
 * sorted by one of four keys, and the statistics cards computed from it.
 */
module Billing {
  import opened Wrappers
  import opened Text
  import opened Seqs
  import opened Sorting
  import opened Criteria
  import opened Model

  /** The page's own `BillingRecord.status` union. */
  datatype BillingStatus = Draft | Issued | Sent | Paid | Overdue | Cancelled

  datatype BillingRecord = BillingRecord(
    id: string,
    invoiceNumber: string,
    tenant: Tenant,
    pbm: Pbm,
    jobRequest: JobRequest,
    amount: int,
    status: BillingStatus,
    updatedAt: DateText)

  /** The page's view state that feeds the list. */
  datatype BillingCriteria = BillingCriteria(
    search: string,
    status: Choice<BillingStatus>,
    tenantId: Choice<string>,
    sortBy: string,
    period: Period,
    regional: Regional)

  /** The fields the search box looks at. */
  function SearchFields(b: BillingRecord): seq<string> {
    [b.invoiceNumber, b.pbm.name, b.tenant.name, b.jobRequest.jobType]
  }

  /** The body of the `.filter` callback. */
  predicate Selected(b: BillingRecord, c: BillingCriteria, now: int) {
    && SearchHit(SearchFields(b), c.search)
    && c.status.Admits(b.status)
    && c.tenantId.Admits(b.tenant.id)
    && InPeriod(c.period, now, Parse(b.updatedAt))
    && InRegion(c.regional, b.tenant.province)
  }

  /** The instant a record sorts by; an unparseable `updatedAt` sorts as the epoch. */
  function SortTime(b: BillingRecord): int {
    Parse(b.updatedAt).GetOr(0)
  }

  /** The `sortBy` comparator as an ascending rank; any key other than the
      three named ones takes the `latest` (default) branch. */
  function Rank(sortBy: string, b: BillingRecord): int {
    if sortBy == "oldest" then SortTime(b)
    else if sortBy == "amount_high" then -b.amount
    else if sortBy == "amount_low" then b.amount
    else -SortTime(b)
  }

  /** The records that pass the criteria, in input order. */
  function Kept(bs: seq<BillingRecord>, c: BillingCriteria, now: int): seq<BillingRecord> {
    Filter(bs, b => Selected(b, c, now))
  }

  /** `filteredAndSortedBillings`: exactly the records that pass, each as often
      as it occurs in the input, in some order. */
  function FilteredAndSorted(bs: seq<BillingRecord>, c: BillingCriteria, now: int): (r: seq<BillingRecord>)
    ensures |r| <= |bs|
    ensures multiset(r) == multiset(Kept(bs, c, now)) <= multiset(bs)
    ensures forall b :: b in r <==> b in bs && Selected(b, c, now)
  {
    var r := StableSort(Kept(bs, c, now), b => Rank(c.sortBy, b));
    assert forall b :: b in r <==> b in multiset(Kept(bs, c, now));
    r
  }

  /** The list is ordered by `updatedAt` descending for `latest` and for any
      unknown key, ascending for `oldest`, and by amount for the amount keys. */
  lemma SortOrder(bs: seq<BillingRecord>, c: BillingCriteria, now: int)
    ensures var r := FilteredAndSorted(bs, c, now);
      && (c.sortBy == "oldest" ==>
            forall i, j :: 0 <= i < j < |r| ==> SortTime(r[i]) <= SortTime(r[j]))
      && (c.sortBy == "amount_high" ==>
            forall i, j :: 0 <= i < j < |r| ==> r[i].amount >= r[j].amount)
      && (c.sortBy == "amount_low" ==>
            forall i, j :: 0 <= i < j < |r| ==> r[i].amount <= r[j].amount)
      && (c.sortBy != "oldest" && c.sortBy != "amount_high" && c.sortBy != "amount_low" ==>
            forall i, j :: 0 <= i < j < |r| ==> SortTime(r[i]) >= SortTime(r[j]))
  {
    var rank := b => Rank(c.sortBy, b);
    var r := FilteredAndSorted(bs, c, now);
    SortSorted(Kept(bs, c, now), rank);
    assert forall i, j :: 0 <= i < j < |r| ==> Rank(c.sortBy, r[i]) <= Rank(c.sortBy, r[j]);
  }

  /** The sort is stable: records with the same sort key keep their input order. */
  lemma SortIsStable(bs: seq<BillingRecord>, c: BillingCriteria, now: int, key: int)
    ensures var rank := b => Rank(c.sortBy, b);
            WithRank(FilteredAndSorted(bs, c, now), rank, key) == WithRank(Kept(bs, c, now), rank, key)
  {
    SortStable(Kept(bs, c, now), b => Rank(c.sortBy, b), key);
  }

  /** With an empty query and every other criterion at `ALL`, the list is a
      permutation of all records. */
  lemma NeutralCriteriaKeepAll(bs: seq<BillingRecord>, sortBy: string, now: int)
    ensures var c := BillingCriteria("", Any, Any, sortBy, AllTime, AllRegions);
            multiset(FilteredAndSorted(bs, c, now)) == multiset(bs)
  {
    var c := BillingCriteria("", Any, Any, sortBy, AllTime, AllRegions);
    forall b | b in bs
      ensures Selected(b, c, now)
    {
      EmptyQueryHits(SearchFields(b));
    }
    FilterKeepsAll(bs, b => Selected(b, c, now));
  }

  /** The search looks at exactly the invoice number, PBM name, tenant name and job type. */
  lemma SearchFieldsExactly(b: BillingRecord, q: string)
    ensures SearchHit(SearchFields(b), q) <==>
      Matches(b.invoiceNumber, q) || Matches(b.pbm.name, q) || Matches(b.tenant.name, q) || Matches(b.jobRequest.jobType, q)
  {
    var f := SearchFields(b);
    assert f[0] == b.invoiceNumber && f[1] == b.pbm.name && f[2] == b.tenant.name && f[3] == b.jobRequest.jobType;
  }

  /** Widening the period never removes a record from the list. */
  lemma WiderPeriodKeepsRecords(bs: seq<BillingRecord>, c: BillingCriteria, wider: Period, now: int)
    requires Breadth(c.period) <= Breadth(wider)
    ensures multiset(FilteredAndSorted(bs, c, now)) <= multiset(FilteredAndSorted(bs, c.(period := wider), now))
  {
    var w := c.(period := wider);
    forall b | b in bs && Selected(b, c, now)
      ensures Selected(b, w, now)
    {
      WiderPeriodKeeps(c.period, wider, now, Parse(b.updatedAt));
    }
    FilterNarrower(bs, b => Selected(b, c, now), b => Selected(b, w, now));
  }

  /** For a chosen region every listed record belongs to a tenant of that province,
      whatever the role of the viewer. */
  lemma RegionKeepsItsProvince(bs: seq<BillingRecord>, c: BillingCriteria, now: int)
    requires c.regional.Region?
    ensures forall b :: b in FilteredAndSorted(bs, c, now) ==> b.tenant.province == ProvinceName(c.regional.code)
  {
    var r := FilteredAndSorted(bs, c, now);
    forall b | b in r
      ensures b.tenant.province == ProvinceName(c.regional.code)
    {
      var i :| 0 <= i < |r| && r[i] == b;
    }
  }

  /** The statistics cards. */
  datatype BillingStats = BillingStats(
    totalBillings: nat,
    totalAmount: int,
    paidAmount: int,
    overdueAmount: int,
    pendingAmount: int)

  predicate IsPaid(b: BillingRecord) {
    b.status == Paid
  }

  predicate IsOverdue(b: BillingRecord) {
    b.status == Overdue
  }

  predicate IsPending(b: BillingRecord) {
    b.status == Issued || b.status == Sent
  }

  /** The statuses no card covers. */
  predicate Uncovered(b: BillingRecord) {
    b.status == Draft || b.status == Cancelled
  }

  function Amount(b: BillingRecord): int {
    b.amount
  }

  /** With non-negative amounts, each money card lies between zero and the total. */
  lemma PartSumsBounded(rs: seq<BillingRecord>)
    ensures (forall i :: 0 <= i < |rs| ==> rs[i].amount >= 0) ==>
      && 0 <= Sum(Filter(rs, IsPaid), Amount) <= Sum(rs, Amount)
      && 0 <= Sum(Filter(rs, IsOverdue), Amount) <= Sum(rs, Amount)
      && 0 <= Sum(Filter(rs, IsPending), Amount) <= Sum(rs, Amount)
  {
    if forall i :: 0 <= i < |rs| ==> rs[i].amount >= 0 {
      assert forall x :: x in rs ==> Amount(x) >= 0;
      SumOfPartBounded(rs, IsPaid, Amount);
      SumOfPartBounded(rs, IsOverdue, Amount);
      SumOfPartBounded(rs, IsPending, Amount);
    }
  }

  function Statistics(rs: seq<BillingRecord>): (st: BillingStats)
    ensures st.totalBillings == |rs|
    ensures (forall i :: 0 <= i < |rs| ==> rs[i].amount >= 0) ==>
      && 0 <= st.paidAmount <= st.totalAmount
      && 0 <= st.overdueAmount <= st.totalAmount
      && 0 <= st.pendingAmount <= st.totalAmount
  {
    PartSumsBounded(rs);
    BillingStats(
      |rs|,
      Sum(rs, Amount),
      Sum(Filter(rs, IsPaid), Amount),
      Sum(Filter(rs, IsOverdue), Amount),
      Sum(Filter(rs, IsPending), Amount))
  }

  /** The three money cards and the uncovered DRAFT and CANCELLED records
      together account for the total amount exactly. */
  lemma StatisticsPartition(rs: seq<BillingRecord>)
    ensures var st := Statistics(rs);
            st.totalAmount == st.paidAmount + st.overdueAmount + st.pendingAmount + Sum(Filter(rs, Uncovered), Amount)
  {
    forall i | 0 <= i < |rs|
      ensures Flags(IsPaid(rs[i]), IsOverdue(rs[i]), IsPending(rs[i]), Uncovered(rs[i])) == 1
    {
      match rs[i].status
      case Draft =>
      case Issued =>
      case Sent =>
      case Paid =>
      case Overdue =>
      case Cancelled =>
    }
    SumOfFourParts(rs, IsPaid, IsOverdue, IsPending, Uncovered, Amount);
  }

  /** With positive amounts, the three money cards never exceed the total, and
      they reach it exactly when no DRAFT or CANCELLED record is listed. */
  lemma CardsBoundedByTotal(rs: seq<BillingRecord>)
    requires forall i :: 0 <= i < |rs| ==> rs[i].amount > 0
    ensures var st := Statistics(rs);
            && st.paidAmount + st.overdueAmount + st.pendingAmount <= st.totalAmount
            && (st.paidAmount + st.overdueAmount + st.pendingAmount == st.totalAmount
                <==> forall i :: 0 <= i < |rs| ==> !Uncovered(rs[i]))
  {
    StatisticsPartition(rs);
    var u := Filter(rs, Uncovered);
    PositiveSumZero(u, Amount);
    if forall i :: 0 <= i < |rs| ==> !Uncovered(rs[i]) {
      assert |u| == 0;
    } else {
      var i :| 0 <= i < |rs| && Uncovered(rs[i]);
      assert rs[i] in u;
    }
  }

  /** "x% of the total": computed only for a positive total, and a percentage
      when the paid amount lies between zero and the total. */
  function PaidPercent(st: BillingStats): (pct: real)
    ensures st.totalAmount <= 0 ==> pct == 0.0
    ensures 0 <= st.paidAmount <= st.totalAmount ==> 0.0 <= pct <= 100.0
  {
    if st.totalAmount > 0 then (st.paidAmount as real / st.totalAmount as real) * 100.0 else 0.0
  }
}
