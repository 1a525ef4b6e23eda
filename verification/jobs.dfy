/**
 * `JobManagement.tsx`: the job request list filtered by search, status,
 * period and (for a superadmin only) region, and the action buttons each
 * layout offers for a job according to the viewer's role and the job's status.
 */
module Jobs {
  import opened Wrappers
  import opened Text
  import opened Seqs
  import opened Criteria
  import opened Model
  import opened Auth

  datatype JobCriteria = JobCriteria(
    search: string,
    status: Choice<JobStatus>,
    period: Period,
    regional: Regional)

  /** The fields the search box looks at; the job code is not one of them. */
  function SearchFields(j: JobRequest): seq<string> {
    [j.jobType, j.shipName, j.pbm.name]
  }

  /** The body of the `.filter` callback; the region test is skipped unless
      the viewer is a superadmin. */
  predicate Selected(j: JobRequest, c: JobCriteria, now: int, superadmin: bool) {
    && SearchHit(SearchFields(j), c.search)
    && c.status.Admits(j.status)
    && InPeriod(c.period, now, Parse(j.updatedAt))
    && (superadmin ==> InRegion(c.regional, j.tenant.province))
  }

  /** `filteredJobs`: the jobs that pass, in their original order. */
  function FilteredJobs(jobs: seq<JobRequest>, c: JobCriteria, now: int, session: Option<User>): (r: seq<JobRequest>)
    ensures IsSubseq(r, jobs)
    ensures forall j :: j in r <==> j in jobs && Selected(j, c, now, IsSuperadmin(session))
    ensures forall j :: j in jobs ==>
      multiset(r)[j] == if Selected(j, c, now, IsSuperadmin(session)) then multiset(jobs)[j] else 0
  {
    var r := Filter(jobs, j => Selected(j, c, now, IsSuperadmin(session)));
    assert forall j :: j in r ==> exists i :: 0 <= i < |r| && r[i] == j;
    r
  }

  /** The search looks at exactly the job type, ship name and PBM name. */
  lemma SearchFieldsExactly(j: JobRequest, q: string)
    ensures SearchHit(SearchFields(j), q) <==>
      Matches(j.jobType, q) || Matches(j.shipName, q) || Matches(j.pbm.name, q)
  {
    var f := SearchFields(j);
    assert f[0] == j.jobType && f[1] == j.shipName && f[2] == j.pbm.name;
  }

  /** Neither the job code nor the port location influences whether a job is listed. */
  lemma JobCodeNotSearched(j: JobRequest, code: Option<string>, port: string, c: JobCriteria, now: int, superadmin: bool)
    ensures Selected(j.(jobCode := code, portLocation := port), c, now, superadmin) <==> Selected(j, c, now, superadmin)
  {
  }

  /** For a viewer who is not a superadmin the region selector has no effect. */
  lemma RegionIgnoredBelowSuperadmin(jobs: seq<JobRequest>, c: JobCriteria, other: Regional, now: int, session: Option<User>)
    requires !IsSuperadmin(session)
    ensures FilteredJobs(jobs, c, now, session) == FilteredJobs(jobs, c.(regional := other), now, session)
  {
    var d := c.(regional := other);
    FilterAgree(jobs, j => Selected(j, c, now, IsSuperadmin(session)), j => Selected(j, d, now, IsSuperadmin(session)));
  }

  /** For a superadmin with a region chosen, every listed job belongs to a
      tenant of that region's province. */
  lemma SuperadminRegionKeepsProvince(jobs: seq<JobRequest>, c: JobCriteria, now: int, session: Option<User>)
    requires IsSuperadmin(session) && c.regional.Region?
    ensures forall j :: j in FilteredJobs(jobs, c, now, session) ==> j.tenant.province == ProvinceName(c.regional.code)
  {
  }

  /** Widening the period only adds jobs, keeping the order of those already shown. */
  lemma WiderPeriodKeepsJobs(jobs: seq<JobRequest>, c: JobCriteria, wider: Period, now: int, session: Option<User>)
    requires Breadth(c.period) <= Breadth(wider)
    ensures IsSubseq(FilteredJobs(jobs, c, now, session), FilteredJobs(jobs, c.(period := wider), now, session))
  {
    var w := c.(period := wider);
    var sa := IsSuperadmin(session);
    forall j | j in jobs && Selected(j, c, now, sa)
      ensures Selected(j, w, now, sa)
    {
      WiderPeriodKeeps(c.period, wider, now, Parse(j.updatedAt));
    }
    FilterNarrower(jobs, j => Selected(j, c, now, sa), j => Selected(j, w, now, sa));
  }

  /** `canManageJobs`. */
  predicate CanManageJobs(role: Option<string>)
    ensures role.None? ==> !CanManageJobs(role)
    ensures CanManageJobs(role) ==> role != Some("pbm")
  {
    role == Some("superadmin") || role == Some("admin")
  }

  /** `canCreateJobs`: the "create" button. */
  predicate CanCreateJobs(role: Option<string>)
    ensures role.None? ==> !CanCreateJobs(role)
    ensures CanManageJobs(role) ==> CanCreateJobs(role)
  {
    role == Some("pbm") || CanManageJobs(role)
  }

  /** The buttons on a job: view details, approve, reject, assign resources. */
  datatype JobAction = View | Approve | Reject | Assign

  /** The buttons a layout renders for a job. The grid and card layouts nest
      the status tests under `canManageJobs`; the table tests both together. */
  function OfferedActions(layout: ViewType, role: Option<string>, status: JobStatus): (acts: set<JobAction>)
    ensures View in acts
    ensures Approve in acts <==> CanManageJobs(role) && status == Pending
    ensures Reject in acts <==> Approve in acts
    ensures Assign in acts <==> CanManageJobs(role) && status == Approved
  {
    match layout
    case Table =>
      {View}
      + (if CanManageJobs(role) && status == Pending then {Approve, Reject} else {})
      + (if CanManageJobs(role) && status == Approved then {Assign} else {})
    case _ =>
      {View}
      + (if CanManageJobs(role) then
           (if status == Pending then {Approve, Reject} else {})
           + (if status == Approved then {Assign} else {})
         else {})
  }

  /** Every layout offers the same buttons, approval and assignment never
      appear together, and a job past approval offers only its details. */
  lemma ActionsAgreeAcrossLayouts(l1: ViewType, l2: ViewType, role: Option<string>, status: JobStatus)
    ensures OfferedActions(l1, role, status) == OfferedActions(l2, role, status)
    ensures !(Approve in OfferedActions(l1, role, status) && Assign in OfferedActions(l1, role, status))
    ensures status != Pending && status != Approved ==> OfferedActions(l1, role, status) == {View}
  {
    var a, b := OfferedActions(l1, role, status), OfferedActions(l2, role, status);
    assert forall x :: x in a <==> x in b by {
      forall x
        ensures x in a <==> x in b
      {
        match x
        case View =>
        case Approve =>
        case Reject =>
        case Assign =>
      }
    }
    if status != Pending && status != Approved {
      forall x | x in a
        ensures x == View
      {
      }
    }
  }

  /** After `login`, the buttons depend on the account name alone, whatever its
      letter case: "superadmin" and "admin" manage jobs, and "pbm" may only
      create them. Without a session nothing beyond viewing is offered. */
  lemma LoginCapabilities(c: Credentials)
    ensures var role := RoleAlias(Some(Login(c)));
            && (CanManageJobs(role) <==> Lower(c.account) == "superadmin" || Lower(c.account) == "admin")
            && (CanCreateJobs(role) <==> CanManageJobs(role) || Lower(c.account) == "pbm")
    ensures !CanManageJobs(RoleAlias(None)) && !CanCreateJobs(RoleAlias(None))
  {
    LoginRole(c);
  }
}
