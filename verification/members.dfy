/**
 * `Members.tsx`: the list of active members filtered by search, position,
 * join date period and (for a superadmin only) region, and the cards
 * counting team leaders and workers among them.
 */
module Members {
  import opened Wrappers
  import opened Text
  import opened Seqs
  import opened Criteria
  import opened Model
  import opened Auth

  datatype MemberCriteria = MemberCriteria(
    search: string,
    position: Choice<Position>,
    period: Period,
    regional: Regional)

  /** The fields the search box looks at. */
  function SearchFields(m: Member): seq<string> {
    [m.fullname, m.memberNumber, m.email]
  }

  /** The body of the `.filter` callback; the period is measured on the join date. */
  predicate Selected(m: Member, c: MemberCriteria, now: int, superadmin: bool) {
    && SearchHit(SearchFields(m), c.search)
    && c.position.Admits(m.position)
    && InPeriod(c.period, now, Parse(m.joinDate))
    && (superadmin ==> InRegion(c.regional, m.tenant.province))
    && m.isActive
  }

  /** `filteredMembers`: the members that pass, in their original order. */
  function FilteredMembers(ms: seq<Member>, c: MemberCriteria, now: int, session: Option<User>): (r: seq<Member>)
    ensures IsSubseq(r, ms)
    ensures forall m :: m in r <==> m in ms && Selected(m, c, now, IsSuperadmin(session))
    ensures forall m :: m in ms ==>
      multiset(r)[m] == if Selected(m, c, now, IsSuperadmin(session)) then multiset(ms)[m] else 0
  {
    var r := Filter(ms, m => Selected(m, c, now, IsSuperadmin(session)));
    assert forall m :: m in r ==> exists i :: 0 <= i < |r| && r[i] == m;
    r
  }

  /** The search looks at exactly the full name, member number and e-mail. */
  lemma SearchFieldsExactly(m: Member, q: string)
    ensures SearchHit(SearchFields(m), q) <==>
      Matches(m.fullname, q) || Matches(m.memberNumber, q) || Matches(m.email, q)
  {
    var f := SearchFields(m);
    assert f[0] == m.fullname && f[1] == m.memberNumber && f[2] == m.email;
  }

  /** An inactive member is never listed, whatever the criteria and the viewer. */
  lemma InactiveNeverListed(ms: seq<Member>, c: MemberCriteria, now: int, session: Option<User>, m: Member)
    requires !m.isActive
    ensures m !in FilteredMembers(ms, c, now, session)
  {
  }

  /** For a viewer who is not a superadmin the region selector has no effect. */
  lemma RegionIgnoredBelowSuperadmin(ms: seq<Member>, c: MemberCriteria, other: Regional, now: int, session: Option<User>)
    requires !IsSuperadmin(session)
    ensures FilteredMembers(ms, c, now, session) == FilteredMembers(ms, c.(regional := other), now, session)
  {
    var d := c.(regional := other);
    FilterAgree(ms, m => Selected(m, c, now, IsSuperadmin(session)), m => Selected(m, d, now, IsSuperadmin(session)));
  }

  /** Widening the period only adds members, keeping the order of those already shown. */
  lemma WiderPeriodKeepsMembers(ms: seq<Member>, c: MemberCriteria, wider: Period, now: int, session: Option<User>)
    requires Breadth(c.period) <= Breadth(wider)
    ensures IsSubseq(FilteredMembers(ms, c, now, session), FilteredMembers(ms, c.(period := wider), now, session))
  {
    var w := c.(period := wider);
    var sa := IsSuperadmin(session);
    forall m | m in ms && Selected(m, c, now, sa)
      ensures Selected(m, w, now, sa)
    {
      WiderPeriodKeeps(c.period, wider, now, Parse(m.joinDate));
    }
    FilterNarrower(ms, m => Selected(m, c, now, sa), m => Selected(m, w, now, sa));
  }

  /** The cards: members listed, team leaders and workers among them. */
  datatype MemberStats = MemberStats(total: nat, teamLeaders: nat, workers: nat)

  predicate IsTeamLeader(m: Member) {
    m.position == TeamLeader
  }

  predicate IsWorker(m: Member) {
    m.position == Worker
  }

  function Statistics(r: seq<Member>): (st: MemberStats)
    ensures st.total == |r|
    ensures st.teamLeaders == 0 <==> forall i :: 0 <= i < |r| ==> r[i].position != TeamLeader
    ensures st.workers == 0 <==> forall i :: 0 <= i < |r| ==> r[i].position != Worker
  {
    FilterEmpty(r, IsTeamLeader);
    FilterEmpty(r, IsWorker);
    MemberStats(|r|, |Filter(r, IsTeamLeader)|, |Filter(r, IsWorker)|)
  }

  /** Every listed member is counted on exactly one of the two position cards. */
  lemma PositionCardsPartition(r: seq<Member>)
    ensures Statistics(r).teamLeaders + Statistics(r).workers == Statistics(r).total
  {
    FilterSplit(r, IsTeamLeader, IsWorker);
  }

  /** Choosing a position in the selector lists exactly the members the
      matching card counts under `ALL`. */
  lemma PositionFilterMatchesCard(ms: seq<Member>, c: MemberCriteria, now: int, session: Option<User>)
    ensures Statistics(FilteredMembers(ms, c.(position := Any), now, session)).teamLeaders
         == |FilteredMembers(ms, c.(position := Only(TeamLeader)), now, session)|
    ensures Statistics(FilteredMembers(ms, c.(position := Any), now, session)).workers
         == |FilteredMembers(ms, c.(position := Only(Worker)), now, session)|
  {
    var sa := IsSuperadmin(session);
    var ca, cl, cw := c.(position := Any), c.(position := Only(TeamLeader)), c.(position := Only(Worker));
    var pa := m => Selected(m, ca, now, sa);
    var pl := m => Selected(m, cl, now, sa);
    var pw := m => Selected(m, cw, now, sa);
    forall m | m in ms
      ensures pa(m) && IsTeamLeader(m) <==> pl(m)
    {
    }
    forall m | m in ms
      ensures pa(m) && IsWorker(m) <==> pw(m)
    {
    }
    FilterThenFilter(ms, pa, IsTeamLeader, pl);
    FilterThenFilter(ms, pa, IsWorker, pw);
  }
}
