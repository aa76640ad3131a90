/** apps/web/app/dashboard/page.tsx, `getDashboardData`: counts and short
    lists computed from the first hundred leads, deals and incomplete
    activities. The two time bounds are parameters. */
module Dashboard {
  import opened Wrappers
  import opened Enums
  import opened Seqs
  import Leads
  import Deals
  import Activities

  /** The open-deal amount sum is floating point and not part of this model. */
  datatype Summary = Summary(
    todayLeadsCount: nat,
    openDealsCount: nat,
    upcomingActivitiesCount: nat,
    recentLeads: seq<Leads.Lead>,
    recentDeals: seq<Deals.Deal>)

  /** A lead created at or after the start of the current day. */
  predicate CreatedToday(today: int, l: Leads.Lead) { l.createdAt >= today }

  /** A deal neither won nor lost. */
  predicate IsOpen(d: Deals.Deal) { d.stage != Stage.Won && d.stage != Stage.Lost }

  /** Due at or before the week bound and not completed; no lower bound. */
  predicate IsUpcoming(weekFromNow: int, a: Activities.Activity)
  {
    a.dueDate.Some? && a.dueDate.value <= weekFromNow && !a.completed
  }

  /** The first `min(n, |s|)` items, in the order the API returned them. */
  function Head<T>(s: seq<T>, n: nat): (r: seq<T>)
    ensures |r| == Min(n, |s|)
    ensures r <= s
  {
    if |s| <= n then s else s[..n]
  }

  function DashboardData(
    leads: seq<Leads.Lead>, deals: seq<Deals.Deal>, activities: seq<Activities.Activity>,
    today: int, weekFromNow: int): (r: Summary)
    ensures r.todayLeadsCount <= |leads| && r.openDealsCount <= |deals|
    ensures r.upcomingActivitiesCount <= |activities|
    ensures r.openDealsCount == |Filter(deals, IsOpen)|
    ensures r.todayLeadsCount == |Filter(leads, l => CreatedToday(today, l))|
    ensures r.upcomingActivitiesCount == |Filter(activities, a => IsUpcoming(weekFromNow, a))|
    ensures r.recentLeads <= leads && |r.recentLeads| == Min(5, |leads|)
    ensures r.recentDeals <= deals && |r.recentDeals| == Min(5, |deals|)
  {
    Summary(
      |Filter(leads, l => CreatedToday(today, l))|,
      |Filter(deals, IsOpen)|,
      |Filter(activities, a => IsUpcoming(weekFromNow, a))|,
      Head(leads, 5),
      Head(deals, 5))
  }

  /** Open and closed deals split the fetched list: the open count is the list
      length minus the won and lost deals. */
  lemma {:induction false} OpenAndClosedPartition(deals: seq<Deals.Deal>, today: int, weekFromNow: int)
    ensures DashboardData([], deals, [], today, weekFromNow).openDealsCount
            + |Filter(deals, d => !IsOpen(d))| == |deals|
    decreases |deals|
  {
    if deals != [] {
      OpenAndClosedPartition(deals[1..], today, weekFromNow);
    }
  }

  /** Every filtered list keeps the fetched order. */
  lemma FilteredKeepOrder(leads: seq<Leads.Lead>, deals: seq<Deals.Deal>, activities: seq<Activities.Activity>,
                          today: int, weekFromNow: int)
    ensures SubsequenceOf(Filter(leads, l => CreatedToday(today, l)), leads)
    ensures SubsequenceOf(Filter(deals, IsOpen), deals)
    ensures SubsequenceOf(Filter(activities, a => IsUpcoming(weekFromNow, a)), activities)
  {
    FilterIsSubsequence(leads, l => CreatedToday(today, l));
    FilterIsSubsequence(deals, IsOpen);
    FilterIsSubsequence(activities, a => IsUpcoming(weekFromNow, a));
  }

  /** Overdue work is still upcoming: an incomplete activity due before today
      is counted. */
  lemma OverdueCounts(a: Activities.Activity, rest: seq<Activities.Activity>, today: int, weekFromNow: int)
    requires a.dueDate.Some? && a.dueDate.value < today <= weekFromNow && !a.completed
    ensures DashboardData([], [], [a] + rest, today, weekFromNow).upcomingActivitiesCount
            == 1 + DashboardData([], [], rest, today, weekFromNow).upcomingActivitiesCount
  {
    assert ([a] + rest)[1..] == rest;
  }

  /** A completed activity or one without a due date never counts. */
  lemma DoneOrUndatedSkipped(a: Activities.Activity, rest: seq<Activities.Activity>, today: int, weekFromNow: int)
    requires a.completed || a.dueDate.None?
    ensures DashboardData([], [], [a] + rest, today, weekFromNow).upcomingActivitiesCount
            == DashboardData([], [], rest, today, weekFromNow).upcomingActivitiesCount
  {
    assert ([a] + rest)[1..] == rest;
  }
}
