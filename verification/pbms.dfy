/**
 * `PBMManagement.tsx`: the list of PBM companies (the shipping agents that
 * request labour) filtered by search, activity, tenant, registration period
 * and (for a superadmin only) region; the statistics cards; and the job
 * figures shown for one PBM.
 */
module Pbms {
  import opened Wrappers
  import opened Text
  import opened Seqs
  import opened Criteria
  import opened Model
  import opened Auth

  /** The status select box: 'ALL' | 'ACTIVE' | 'INACTIVE', mapped onto `isActive`. */
  datatype ActivityFilter = AllPbms | ActiveOnly | InactiveOnly {
    predicate Admits(isActive: bool) {
      || AllPbms?
      || (ActiveOnly? && isActive)
      || (InactiveOnly? && !isActive)
    }
  }

  datatype PbmCriteria = PbmCriteria(
    search: string,
    status: ActivityFilter,
    tenantId: Choice<string>,
    period: Period,
    regional: Regional)

  /** The fields the search box looks at. */
  function SearchFields(p: Pbm): seq<string> {
    [p.name, p.email, p.picName, p.tenant.name]
  }

  /** The body of the `.filter` callback; the period is measured on the registration date. */
  predicate Selected(p: Pbm, c: PbmCriteria, now: int, superadmin: bool) {
    && SearchHit(SearchFields(p), c.search)
    && c.status.Admits(p.isActive)
    && c.tenantId.Admits(p.tenant.id)
    && InPeriod(c.period, now, Parse(p.createdAt))
    && (superadmin ==> InRegion(c.regional, p.tenant.province))
  }

  /** `filteredPBMs`: the PBMs that pass, in their original order. */
  function FilteredPbms(ps: seq<Pbm>, c: PbmCriteria, now: int, session: Option<User>): (r: seq<Pbm>)
    ensures IsSubseq(r, ps)
    ensures forall p :: p in r <==> p in ps && Selected(p, c, now, IsSuperadmin(session))
    ensures forall p :: p in ps ==>
      multiset(r)[p] == if Selected(p, c, now, IsSuperadmin(session)) then multiset(ps)[p] else 0
  {
    var r := Filter(ps, p => Selected(p, c, now, IsSuperadmin(session)));
    assert forall p :: p in r ==> exists i :: 0 <= i < |r| && r[i] == p;
    r
  }

  /** The search looks at exactly the name, e-mail, person in charge and tenant name. */
  lemma SearchFieldsExactly(p: Pbm, q: string)
    ensures SearchHit(SearchFields(p), q) <==>
      Matches(p.name, q) || Matches(p.email, q) || Matches(p.picName, q) || Matches(p.tenant.name, q)
  {
    var f := SearchFields(p);
    assert f[0] == p.name && f[1] == p.email && f[2] == p.picName && f[3] == p.tenant.name;
  }

  /** The status filter keeps exactly the PBMs whose activity flag it names. */
  lemma ActivityFilterMeaning(ps: seq<Pbm>, c: PbmCriteria, now: int, session: Option<User>)
    ensures c.status == ActiveOnly ==> forall p :: p in FilteredPbms(ps, c, now, session) ==> p.isActive
    ensures c.status == InactiveOnly ==> forall p :: p in FilteredPbms(ps, c, now, session) ==> !p.isActive
    ensures forall p :: p in ps && Selected(p, c.(status := AllPbms), now, IsSuperadmin(session)) ==>
      (p in FilteredPbms(ps, c.(status := ActiveOnly), now, session) <==> p.isActive)
  {
  }

  /** For a viewer who is not a superadmin the region selector has no effect. */
  lemma RegionIgnoredBelowSuperadmin(ps: seq<Pbm>, c: PbmCriteria, other: Regional, now: int, session: Option<User>)
    requires !IsSuperadmin(session)
    ensures FilteredPbms(ps, c, now, session) == FilteredPbms(ps, c.(regional := other), now, session)
  {
    var d := c.(regional := other);
    FilterAgree(ps, p => Selected(p, c, now, IsSuperadmin(session)), p => Selected(p, d, now, IsSuperadmin(session)));
  }

  /** Widening the period only adds PBMs, keeping the order of those already shown. */
  lemma WiderPeriodKeepsPbms(ps: seq<Pbm>, c: PbmCriteria, wider: Period, now: int, session: Option<User>)
    requires Breadth(c.period) <= Breadth(wider)
    ensures IsSubseq(FilteredPbms(ps, c, now, session), FilteredPbms(ps, c.(period := wider), now, session))
  {
    var w := c.(period := wider);
    var sa := IsSuperadmin(session);
    forall p | p in ps && Selected(p, c, now, sa)
      ensures Selected(p, w, now, sa)
    {
      WiderPeriodKeeps(c.period, wider, now, Parse(p.createdAt));
    }
    FilterNarrower(ps, p => Selected(p, c, now, sa), p => Selected(p, w, now, sa));
  }

  /** The statistics cards. The job card counts every job request, not only
      those of the listed PBMs. */
  datatype PbmStats = PbmStats(total: nat, active: nat, inactive: nat, totalJobs: nat)

  predicate IsActivePbm(p: Pbm) {
    p.isActive
  }

  predicate IsInactivePbm(p: Pbm) {
    !p.isActive
  }

  function Statistics(r: seq<Pbm>, jobs: seq<JobRequest>): (st: PbmStats)
    ensures st.total == |r| && st.totalJobs == |jobs|
    ensures st.active == 0 <==> forall i :: 0 <= i < |r| ==> !r[i].isActive
    ensures st.inactive == 0 <==> forall i :: 0 <= i < |r| ==> r[i].isActive
  {
    FilterEmpty(r, IsActivePbm);
    FilterEmpty(r, IsInactivePbm);
    PbmStats(|r|, |Filter(r, IsActivePbm)|, |Filter(r, IsInactivePbm)|, |jobs|)
  }

  /** Active and inactive PBMs add up to the listed total; the job card does
      not depend on the criteria at all. */
  lemma StatisticsCards(ps: seq<Pbm>, jobs: seq<JobRequest>, c: PbmCriteria, d: PbmCriteria, now: int, session: Option<User>)
    ensures var st := Statistics(FilteredPbms(ps, c, now, session), jobs);
            st.active + st.inactive == st.total
    ensures Statistics(FilteredPbms(ps, c, now, session), jobs).totalJobs
         == Statistics(FilteredPbms(ps, d, now, session), jobs).totalJobs == |jobs|
  {
    FilterSplit(FilteredPbms(ps, c, now, session), IsActivePbm, IsInactivePbm);
  }

  /** Choosing ACTIVE or INACTIVE in the selector lists exactly the PBMs the
      matching card counts under `ALL`. */
  lemma ActivityFilterMatchesCards(ps: seq<Pbm>, jobs: seq<JobRequest>, c: PbmCriteria, now: int, session: Option<User>)
    ensures Statistics(FilteredPbms(ps, c.(status := AllPbms), now, session), jobs).active
         == |FilteredPbms(ps, c.(status := ActiveOnly), now, session)|
    ensures Statistics(FilteredPbms(ps, c.(status := AllPbms), now, session), jobs).inactive
         == |FilteredPbms(ps, c.(status := InactiveOnly), now, session)|
  {
    var sa := IsSuperadmin(session);
    var ca, cy, cn := c.(status := AllPbms), c.(status := ActiveOnly), c.(status := InactiveOnly);
    var pa := p => Selected(p, ca, now, sa);
    var py := p => Selected(p, cy, now, sa);
    var pn := p => Selected(p, cn, now, sa);
    forall p | p in ps
      ensures pa(p) && IsActivePbm(p) <==> py(p)
    {
    }
    forall p | p in ps
      ensures pa(p) && IsInactivePbm(p) <==> pn(p)
    {
    }
    FilterThenFilter(ps, pa, IsActivePbm, py);
    FilterThenFilter(ps, pa, IsInactivePbm, pn);
  }

  /** `getPBMJobs`: the job requests placed by the PBM with this id, in order. */
  function PbmJobs(jobs: seq<JobRequest>, pbmId: string): (r: seq<JobRequest>)
    ensures IsSubseq(r, jobs)
    ensures forall j :: j in r <==> j in jobs && j.pbm.id == pbmId
    ensures forall j :: j in jobs ==> multiset(r)[j] == if j.pbm.id == pbmId then multiset(jobs)[j] else 0
  {
    var r := Filter(jobs, (j: JobRequest) => j.pbm.id == pbmId);
    assert forall j :: j in r ==> exists i :: 0 <= i < |r| && r[i] == j;
    r
  }

  /** Jobs of two different PBMs never coincide, so their job lists together
      hold at most every job request once. */
  lemma PbmJobsDisjoint(jobs: seq<JobRequest>, a: string, b: string)
    requires a != b
    ensures forall j :: j in PbmJobs(jobs, a) ==> j !in PbmJobs(jobs, b)
    ensures |PbmJobs(jobs, a)| + |PbmJobs(jobs, b)| <= |jobs|
  {
    FilterDisjoint(jobs, (j: JobRequest) => j.pbm.id == a, (j: JobRequest) => j.pbm.id == b);
  }

  /** The job figures of the PBM detail: its jobs, the completed-and-approved
      ones and the ones in progress. */
  datatype JobSummary = JobSummary(total: nat, completed: nat, inProgress: nat)

  predicate IsCompletedApproved(j: JobRequest) {
    j.status == CompletedApproved
  }

  predicate IsInProgress(j: JobRequest) {
    j.status == InProgress
  }

  function Summary(jobs: seq<JobRequest>, pbmId: string): (s: JobSummary)
    ensures s.completed <= s.total && s.inProgress <= s.total && s.total <= |jobs|
    ensures s.total == 0 <==> forall i :: 0 <= i < |jobs| ==> jobs[i].pbm.id != pbmId
  {
    var mine := PbmJobs(jobs, pbmId);
    FilterEmpty(jobs, (j: JobRequest) => j.pbm.id == pbmId);
    JobSummary(|mine|, |Filter(mine, IsCompletedApproved)|, |Filter(mine, IsInProgress)|)
  }

  /** The completed and in-progress figures never exceed the PBM's job count
      together, and that count never exceeds the page's job card. */
  lemma SummaryBounded(jobs: seq<JobRequest>, pbmId: string)
    ensures var s := Summary(jobs, pbmId);
            s.completed + s.inProgress <= s.total <= |jobs|
  {
    FilterDisjoint(PbmJobs(jobs, pbmId), IsCompletedApproved, IsInProgress);
  }
}
