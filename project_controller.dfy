/**
  The project handlers: create, list, the month-to-date details of one
  project joined with its active budgets, field-limited update, archiving,
  and the fold `processAnalyticsData` applies to the per-service, per-day
  analytics documents.
*/
module ProjectController {
  import opened Wrappers
  import opened Js
  import opened Models
  import opened Http
  import opened Query
  import opened Usage
  import opened Store
  import opened ProjectMiddleware

  const CreateFailed: string := "Failed to create project"
  const DetailsFailed: string := "Failed to fetch project details"
  const UpdateFailed: string := "Failed to update project"
  const ArchiveFailed: string := "Failed to archive project"
  const ArchivedMessage: string := "Project archived successfully"

  // ----- createProject ----------------------------------------------------

  method CreateProject(db: Db, company: Id, body: Body, now: Time) returns (reply: Reply<Project>)
    requires db.Valid()
    modifies db`projects, db`nextId
    ensures db.Valid()
    ensures var r := NewProject(old(db.nextId), Get(body, "name"), company, Get(body, "description"), now);
            (r.Success? ==> reply == Ok(201, r.value) && db.projects == old(db.projects) + [r.value])
            && (r.Failure? ==> reply == Err(500, CreateFailed) && db.projects == old(db.projects)
                               && db.nextId == old(db.nextId))
  {
    var r := NewProject(db.nextId, Get(body, "name"), company, Get(body, "description"), now);
    if r.Success? {
      db.InsertProject(r.value);
      reply := Ok(201, r.value);
    } else {
      reply := Err(500, CreateFailed);
    }
  }

  // ----- getCompanyProjects -----------------------------------------------

  /** `Project.find({ company })`: every project of the company, archived ones included, in storage order. */
  function CompanyProjects(ps: seq<Project>, company: Id): (r: seq<Project>)
    ensures forall i :: 0 <= i < |r| ==> r[i].company == company && r[i] in ps
    ensures forall i :: 0 <= i < |ps| && ps[i].company == company ==> ps[i] in r
    ensures forall i :: 0 <= i < |ps| ==>
      multiset(r)[ps[i]] == if ps[i].company == company then multiset(ps)[ps[i]] else 0
    ensures Subsequence(r, ps)
  {
    Filter(ps, (p: Project) => p.company == company)
  }

  // ----- getProjectDetails ------------------------------------------------

  /** `current_month_stats`. */
  datatype MonthStats = MonthStats(totalCost: real, activeBudgets: nat, servicesCount: nat)

  /** One `budget_utilization` entry. */
  datatype ServiceUtilization = ServiceUtilization(service: string, totalCost: real, budgetAmount: real,
                                                  utilization: Option<real>)

  datatype ProjectDetails = ProjectDetails(project: Project, stats: MonthStats,
                                           budgetUtilization: seq<ServiceUtilization>,
                                           costBreakdown: seq<ServiceTotal>)

  /** `Budget.find({ project, budget_status: 'active' })`; the query does not name the company. */
  function ActiveProjectBudgets(bs: seq<Budget>, project: Id): (r: seq<Budget>)
    ensures forall i :: 0 <= i < |r| ==> r[i].project == project && r[i].status == BudgetStatus.Active && r[i] in bs
    ensures forall i :: 0 <= i < |bs| && bs[i].project == project && bs[i].status == BudgetStatus.Active ==> bs[i] in r
    ensures forall i :: 0 <= i < |bs| ==>
      multiset(r)[bs[i]] == if bs[i].project == project && bs[i].status == BudgetStatus.Active then multiset(bs)[bs[i]] else 0
    ensures Subsequence(r, bs)
  {
    Filter(bs, (b: Budget) => b.project == project && b.status == BudgetStatus.Active)
  }

  /** The month's records of the project: `$match: { project, date: { $gte: monthStart } }`. */
  function MonthScope(costs: seq<CostRecord>, project: Id, monthStart: Time): seq<CostRecord> {
    Scope(costs, None, project, monthStart)
  }

  /** `(total_cost / budget_amount) * 100`; a zero amount yields Infinity or NaN, serialised as null. */
  function Percentage(cost: real, amount: real): (r: Option<real>)
    ensures r.Some? <==> amount != 0.0
    ensures r.Some? ==> r.value * amount == cost * 100.0
  {
    if amount == 0.0 then None else Some(cost / amount * 100.0)
  }

  /**
    One service's entry: the first active budget whose name is the service's
    gives the amount and the percentage; without one, both are zero.
  */
  function UtilizationOf(budgets: seq<Budget>, g: ServiceTotal): (e: ServiceUtilization)
    ensures e.service == g.service && e.totalCost == g.totalCost
    ensures (forall i :: 0 <= i < |budgets| ==> budgets[i].serviceName != g.service) ==>
              e.budgetAmount == 0.0 && e.utilization == Some(0.0)
    ensures forall k :: FirstNamed(budgets, g.service, k) ==>
              e.budgetAmount == budgets[k].amount && e.utilization == Percentage(g.totalCost, budgets[k].amount)
  {
    match FindFirst(budgets, (b: Budget) => b.serviceName == g.service)
    case None => ServiceUtilization(g.service, g.totalCost, 0.0, Some(0.0))
    case Some(k) =>
      FirstMatchUnique(budgets, g.service, k);
      ServiceUtilization(g.service, g.totalCost, budgets[k].amount, Percentage(g.totalCost, budgets[k].amount))
  }

  /** Position k holds the first budget named after the service. */
  predicate FirstNamed(budgets: seq<Budget>, service: string, k: int) {
    0 <= k < |budgets| && budgets[k].serviceName == service
    && forall j :: 0 <= j < k ==> budgets[j].serviceName != service
  }

  lemma FirstMatchUnique(budgets: seq<Budget>, service: string, k: nat)
    requires FirstNamed(budgets, service, k)
    ensures forall k' :: FirstNamed(budgets, service, k') ==> k' == k
  {
    forall k' | FirstNamed(budgets, service, k')
      ensures k' == k
    {
      assert budgets[k'].serviceName == service && budgets[k].serviceName == service;
    }
  }

  /** The response body of `getProjectDetails` for a project already found. */
  function Details(p: Project, bs: seq<Budget>, costs: seq<CostRecord>, monthStart: Time): (d: ProjectDetails)
    ensures d.project == p
    ensures d.costBreakdown == GroupByService(MonthScope(costs, p.id, monthStart))
    ensures |d.budgetUtilization| == |d.costBreakdown| == d.stats.servicesCount
    ensures d.stats.activeBudgets == |ActiveProjectBudgets(bs, p.id)|
    ensures forall i :: 0 <= i < |d.budgetUtilization| ==>
              d.budgetUtilization[i] == UtilizationOf(ActiveProjectBudgets(bs, p.id), d.costBreakdown[i])
  {
    var budgets := ActiveProjectBudgets(bs, p.id);
    var groups := GroupByService(MonthScope(costs, p.id, monthStart));
    var joined := seq(|groups|, i requires 0 <= i < |groups| => UtilizationOf(budgets, groups[i]));
    ProjectDetails(p, MonthStats(SumTotals(groups), |budgets|, |groups|), joined, groups)
  }

  /** `total_cost` is the month's whole cost of the project: the service groups neither lose nor repeat a record. */
  lemma DetailsTotalIsMonthCost(p: Project, bs: seq<Budget>, costs: seq<CostRecord>, monthStart: Time)
    ensures Details(p, bs, costs, monthStart).stats.totalCost == SumCost(MonthScope(costs, p.id, monthStart))
  {
    GroupTotalsPartitionCost(MonthScope(costs, p.id, monthStart));
  }

  predicate HasEntry(u: seq<ServiceUtilization>, service: string) {
    exists k :: 0 <= k < |u| && u[k].service == service
  }

  predicate Recorded(scope: seq<CostRecord>, service: string) {
    exists i :: 0 <= i < |scope| && scope[i].serviceName == service
  }

  /** Every service with a cost record among `scope` has an entry. */
  predicate CoversServices(u: seq<ServiceUtilization>, scope: seq<CostRecord>) {
    forall i :: 0 <= i < |scope| ==> HasEntry(u, scope[i].serviceName)
  }

  /** Every entry is a service with a cost record among `scope`. */
  predicate OnlyRecordedServices(u: seq<ServiceUtilization>, scope: seq<CostRecord>) {
    forall k :: 0 <= k < |u| ==> Recorded(scope, u[k].service)
  }

  /** No service has two entries. */
  predicate DistinctEntries(u: seq<ServiceUtilization>) {
    forall k, l :: 0 <= k < l < |u| ==> u[k].service != u[l].service
  }

  /** Every entry carries its service's total. */
  predicate EntryTotals(u: seq<ServiceUtilization>, scope: seq<CostRecord>) {
    forall k :: 0 <= k < |u| ==> u[k].totalCost == ServiceCost(scope, u[k].service)
  }

  /**
    One entry per service with a cost record among `scope`, no service twice,
    each entry carrying its service's total.
  */
  predicate OneEntryPerService(u: seq<ServiceUtilization>, scope: seq<CostRecord>) {
    CoversServices(u, scope) && OnlyRecordedServices(u, scope) && DistinctEntries(u) && EntryTotals(u, scope)
  }

  /** `budget_utilization` has exactly one entry per service with a cost record this month. */
  lemma DetailsOneEntryPerService(p: Project, bs: seq<Budget>, costs: seq<CostRecord>, monthStart: Time)
    ensures OneEntryPerService(Details(p, bs, costs, monthStart).budgetUtilization, MonthScope(costs, p.id, monthStart))
  {
    var u := Details(p, bs, costs, monthStart).budgetUtilization;
    UtilizationFollowsNames(p, bs, costs, monthStart, u);
    EntriesMatchServices(u, MonthScope(costs, p.id, monthStart));
  }

  /** The k-th entry is about the k-th distinct service of the month, with its total. */
  lemma UtilizationFollowsNames(p: Project, bs: seq<Budget>, costs: seq<CostRecord>, monthStart: Time,
                                u: seq<ServiceUtilization>)
    requires u == Details(p, bs, costs, monthStart).budgetUtilization
    ensures var scope := MonthScope(costs, p.id, monthStart);
            |u| == |ServiceNames(scope)|
            && forall k :: 0 <= k < |u| ==>
                 (u[k].service == ServiceNames(scope)[k] && u[k].totalCost == ServiceCost(scope, ServiceNames(scope)[k]))
  {
    var scope := MonthScope(costs, p.id, monthStart);
    var groups := GroupByService(scope);
    forall k | 0 <= k < |u|
      ensures u[k].service == ServiceNames(scope)[k]
      ensures u[k].totalCost == ServiceCost(scope, ServiceNames(scope)[k])
    {
      assert groups[k] == TotalOf(scope, ServiceNames(scope)[k]);
      assert u[k] == UtilizationOf(ActiveProjectBudgets(bs, p.id), groups[k]);
    }
  }

  lemma EntriesMatchServices(u: seq<ServiceUtilization>, scope: seq<CostRecord>)
    requires |u| == |ServiceNames(scope)|
    requires forall k :: 0 <= k < |u| ==>
               (u[k].service == ServiceNames(scope)[k] && u[k].totalCost == ServiceCost(scope, ServiceNames(scope)[k]))
    ensures OneEntryPerService(u, scope)
  {
    var names := ServiceNames(scope);
    EntriesCover(u, scope, names);
    EntriesRecorded(u, scope, names);
    EntriesDistinct(u, names);
  }

  lemma EntriesCover(u: seq<ServiceUtilization>, scope: seq<CostRecord>, names: seq<string>)
    requires |u| == |names| && forall k :: 0 <= k < |u| ==> u[k].service == names[k]
    requires forall i :: 0 <= i < |scope| ==> scope[i].serviceName in names
    ensures CoversServices(u, scope)
  {
    forall i | 0 <= i < |scope|
      ensures HasEntry(u, scope[i].serviceName)
    {
      var j :| 0 <= j < |names| && names[j] == scope[i].serviceName;
      assert u[j].service == scope[i].serviceName;
    }
  }

  lemma EntriesRecorded(u: seq<ServiceUtilization>, scope: seq<CostRecord>, names: seq<string>)
    requires |u| == |names| && forall k :: 0 <= k < |u| ==> u[k].service == names[k]
    requires forall k :: 0 <= k < |names| ==> exists i :: 0 <= i < |scope| && scope[i].serviceName == names[k]
    ensures OnlyRecordedServices(u, scope)
  {
    forall k | 0 <= k < |u|
      ensures Recorded(scope, u[k].service)
    {
      assert u[k].service == names[k];
    }
  }

  lemma EntriesDistinct(u: seq<ServiceUtilization>, names: seq<string>)
    requires |u| == |names| && forall k :: 0 <= k < |u| ==> u[k].service == names[k]
    requires Distinct(names)
    ensures DistinctEntries(u)
  {
    forall k, l | 0 <= k < l < |u|
      ensures u[k].service != u[l].service
    {
      assert u[k].service == names[k] && u[l].service == names[l];
    }
  }

  /**
    `getProjectDetails`: a malformed id fails the lookup's cast (500); a
    project the company does not own is 404; otherwise the month's details.
  */
  function GetProjectDetails(ps: seq<Project>, bs: seq<Budget>, costs: seq<CostRecord>, company: Id,
                             projectId: string, monthStart: Time): (r: Reply<ProjectDetails>)
    ensures ParseId(Text(projectId)).None? ==> r == Err(500, DetailsFailed)
    ensures ParseId(Text(projectId)).Some? ==>
      (r == Err(404, ProjectNotFound) <==>
         forall i :: 0 <= i < |ps| ==> !OwnedProject(ps[i], ParseId(Text(projectId)).value, company))
    ensures r.Ok? ==> r.status == 200 && r.body.project in ps
                      && OwnedProject(r.body.project, ParseId(Text(projectId)).value, company)
                      && r.body == Details(r.body.project, bs, costs, monthStart)
  {
    match ParseId(Text(projectId))
    case None => Err(500, DetailsFailed)
    case Some(id) =>
      match FindOwnedProject(ps, id, company)
      case None => Err(404, ProjectNotFound)
      case Some(k) => Ok(200, Details(ps[k], bs, costs, monthStart))
  }

  // ----- processAnalyticsData ---------------------------------------------

  /** One document of the analytics pipeline: `_id: { service, day }` with the day's sums. */
  datatype AnalyticsItem = AnalyticsItem(service: string, day: int, cost: real, usage: real)

  /** A `daily_data[day]` entry. */
  datatype DayPoint = DayPoint(cost: real, usage: real)

  /** A `serviceData[service]` entry. */
  datatype ServiceSeries = ServiceSeries(totalCost: real, totalUsage: real, dailyData: map<int, DayPoint>)

  datatype AnalyticsReport = AnalyticsReport(services: map<string, ServiceSeries>, timeline: seq<int>)

  /** The services that occur among the items. */
  function ServicesOf(items: seq<AnalyticsItem>): set<string> {
    set i | 0 <= i < |items| :: items[i].service
  }

  /** The days that occur among the items. */
  function DaysOf(items: seq<AnalyticsItem>): set<int> {
    set i | 0 <= i < |items| :: items[i].day
  }

  /** The days that occur among one service's items. */
  function ServiceDaysOf(items: seq<AnalyticsItem>, service: string): set<int> {
    set i | 0 <= i < |items| && items[i].service == service :: items[i].day
  }

  /** The sum of one service's item costs. */
  function ItemCost(items: seq<AnalyticsItem>, service: string): real {
    if items == [] then 0.0
    else
      var last := items[|items| - 1];
      ItemCost(items[..|items| - 1], service) + (if last.service == service then last.cost else 0.0)
  }

  /** The sum of one service's item usage. */
  function ItemUsage(items: seq<AnalyticsItem>, service: string): real {
    if items == [] then 0.0
    else
      var last := items[|items| - 1];
      ItemUsage(items[..|items| - 1], service) + (if last.service == service then last.usage else 0.0)
  }

  /** The point of the last item for that service and day, if there is one. */
  function LastPoint(items: seq<AnalyticsItem>, service: string, day: int): (r: Option<DayPoint>)
    ensures r.Some? <==> day in ServiceDaysOf(items, service)
  {
    if items == [] then None
    else
      var prefix, last := items[..|items| - 1], items[|items| - 1];
      assert items == prefix + [last];
      ServiceDaysStep(prefix, last, service);
      if last.service == service && last.day == day then Some(DayPoint(last.cost, last.usage))
      else LastPoint(prefix, service, day)
  }

  lemma ServiceDaysStep(items: seq<AnalyticsItem>, x: AnalyticsItem, service: string)
    ensures ServiceDaysOf(items + [x], service)
         == ServiceDaysOf(items, service) + (if x.service == service then {x.day} else {})
  {
    var ys := items + [x];
    forall d | d in ServiceDaysOf(ys, service)
      ensures d in ServiceDaysOf(items, service) + (if x.service == service then {x.day} else {})
    {
      var i :| 0 <= i < |ys| && ys[i].service == service && ys[i].day == d;
      if i < |items| {
        assert items[i] == ys[i];
      }
    }
    forall d | d in ServiceDaysOf(items, service)
      ensures d in ServiceDaysOf(ys, service)
    {
      var i :| 0 <= i < |items| && items[i].service == service && items[i].day == d;
      assert ys[i] == items[i];
    }
    if x.service == service {
      assert ys[|items|] == x;
    }
  }

  /** The days of one service, each with its last item's point: last write wins. */
  function DailyData(items: seq<AnalyticsItem>, service: string): map<int, DayPoint> {
    map d | d in ServiceDaysOf(items, service) :: LastPoint(items, service, d).value
  }

  /** One service's entry: the sums of its items' cost and usage and its per-day points. */
  function SeriesOf(items: seq<AnalyticsItem>, service: string): ServiceSeries {
    ServiceSeries(ItemCost(items, service), ItemUsage(items, service), DailyData(items, service))
  }

  /** What `processAnalyticsData` means: one entry per service present among the items. */
  function Summarize(items: seq<AnalyticsItem>): map<string, ServiceSeries> {
    map s | s in ServicesOf(items) :: SeriesOf(items, s)
  }

  lemma {:induction false} AbsentService(items: seq<AnalyticsItem>, service: string)
    requires service !in ServicesOf(items)
    ensures ItemCost(items, service) == 0.0 && ItemUsage(items, service) == 0.0
    ensures ServiceDaysOf(items, service) == {}
  {
    if items != [] {
      var prefix := items[..|items| - 1];
      assert forall i :: 0 <= i < |prefix| ==> prefix[i] == items[i];
      assert items[|items| - 1].service != service;
      AbsentService(prefix, service);
    }
  }

  lemma ItemsStep(items: seq<AnalyticsItem>, x: AnalyticsItem)
    ensures ServicesOf(items + [x]) == ServicesOf(items) + {x.service}
    ensures DaysOf(items + [x]) == DaysOf(items) + {x.day}
  {
    var ys := items + [x];
    assert ys[|items|] == x;
    forall s | s in ServicesOf(ys)
      ensures s in ServicesOf(items) + {x.service}
    {
      var i :| 0 <= i < |ys| && ys[i].service == s;
      if i < |items| {
        assert items[i] == ys[i];
      }
    }
    forall s | s in ServicesOf(items)
      ensures s in ServicesOf(ys)
    {
      var i :| 0 <= i < |items| && items[i].service == s;
      assert ys[i] == items[i];
    }
    forall d | d in DaysOf(ys)
      ensures d in DaysOf(items) + {x.day}
    {
      var i :| 0 <= i < |ys| && ys[i].day == d;
      if i < |items| {
        assert items[i] == ys[i];
      }
    }
    forall d | d in DaysOf(items)
      ensures d in DaysOf(ys)
    {
      var i :| 0 <= i < |items| && items[i].day == d;
      assert ys[i] == items[i];
    }
  }

  /** An item of another service leaves a service's entry alone. */
  lemma SeriesOfOther(items: seq<AnalyticsItem>, x: AnalyticsItem, service: string)
    requires x.service != service
    ensures SeriesOf(items + [x], service) == SeriesOf(items, service)
  {
    var ys := items + [x];
    assert ys[..|items|] == items;
    ServiceDaysStep(items, x, service);
    assert DailyData(ys, service) == DailyData(items, service);
  }

  /** An item of the service adds to its sums and sets the point of its day. */
  lemma SeriesOfSame(items: seq<AnalyticsItem>, x: AnalyticsItem)
    ensures var cur := SeriesOf(items, x.service);
            SeriesOf(items + [x], x.service)
            == ServiceSeries(cur.totalCost + x.cost, cur.totalUsage + x.usage,
                             cur.dailyData[x.day := DayPoint(x.cost, x.usage)])
  {
    var ys := items + [x];
    assert ys[..|items|] == items;
    ServiceDaysStep(items, x, x.service);
    assert DailyData(ys, x.service) == DailyData(items, x.service)[x.day := DayPoint(x.cost, x.usage)];
  }

  /** The loop body's update of `serviceData` for one item: its service's entry, started at zero when absent. */
  function Fold(m: map<string, ServiceSeries>, x: AnalyticsItem): map<string, ServiceSeries> {
    var cur := if x.service in m then m[x.service] else ServiceSeries(0.0, 0.0, map[]);
    m[x.service := ServiceSeries(cur.totalCost + x.cost, cur.totalUsage + x.usage,
                                 cur.dailyData[x.day := DayPoint(x.cost, x.usage)])]
  }

  /** Folding one more item updates exactly that item's service entry, as the loop body does. */
  lemma SummarizeStep(items: seq<AnalyticsItem>, x: AnalyticsItem)
    ensures Summarize(items + [x]) == Fold(Summarize(items), x)
    ensures DaysOf(items + [x]) == DaysOf(items) + {x.day}
  {
    var ys := items + [x];
    var m := Summarize(items);
    var cur := if x.service in m then m[x.service] else ServiceSeries(0.0, 0.0, map[]);
    var expected := Fold(m, x);
    var got := Summarize(ys);
    ItemsStep(items, x);
    assert got.Keys == expected.Keys;
    if x.service !in m {
      AbsentService(items, x.service);
      assert DailyData(items, x.service) == map[];
    }
    assert cur == SeriesOf(items, x.service);
    SeriesOfSame(items, x);
    forall s | s in got
      ensures got[s] == expected[s]
    {
      if s != x.service {
        SeriesOfOther(items, x, s);
      }
    }
  }

  /** `Fold` as the loop body writes it: insert an empty entry when the service is absent, then update it. */
  lemma FoldCases(m: map<string, ServiceSeries>, x: AnalyticsItem)
    ensures var m1 := if x.service !in m then m[x.service := ServiceSeries(0.0, 0.0, map[])] else m;
            var cur := m1[x.service];
            Fold(m, x) == m1[x.service := ServiceSeries(cur.totalCost + x.cost, cur.totalUsage + x.usage,
                                                      cur.dailyData[x.day := DayPoint(x.cost, x.usage)])]
  {
  }

  /** The loop's `serviceData` after the items, folded one at a time. */
  function FoldAll(items: seq<AnalyticsItem>): map<string, ServiceSeries> {
    if items == [] then map[] else Fold(FoldAll(items[..|items| - 1]), items[|items| - 1])
  }

  /** Folding the items one at a time gives the per-service summary. */
  lemma {:induction false} FoldAllIsSummarize(items: seq<AnalyticsItem>)
    ensures FoldAll(items) == Summarize(items)
  {
    if items == [] {
      EmptyAnalytics();
    } else {
      var prefix := items[..|items| - 1];
      FoldAllIsSummarize(prefix);
      assert items == prefix + [items[|items| - 1]];
      SummarizeStep(prefix, items[|items| - 1]);
    }
  }

  /** A later item for the same service and day overwrites the earlier one's point. */
  lemma {:induction false} LastWriteWins(items: seq<AnalyticsItem>, k: nat)
    requires k < |items|
    requires forall j :: k < j < |items| ==> !(items[j].service == items[k].service && items[j].day == items[k].day)
    ensures items[k].service in Summarize(items)
    ensures Summarize(items)[items[k].service].dailyData[items[k].day] == DayPoint(items[k].cost, items[k].usage)
  {
    var x := items[k];
    LastPointOf(items, k);
    assert x.day in ServiceDaysOf(items, x.service);
  }

  lemma {:induction false} LastPointOf(items: seq<AnalyticsItem>, k: nat)
    requires k < |items|
    requires forall j :: k < j < |items| ==> !(items[j].service == items[k].service && items[j].day == items[k].day)
    ensures LastPoint(items, items[k].service, items[k].day) == Some(DayPoint(items[k].cost, items[k].usage))
  {
    if k < |items| - 1 {
      var prefix := items[..|items| - 1];
      assert prefix[k] == items[k];
      assert forall j :: k < j < |prefix| ==> prefix[j] == items[j];
      LastPointOf(prefix, k);
    }
  }

  method Pick<T>(s: set<T>) returns (x: T)
    requires s != {}
    ensures x in s
  {
    x :| x in s;
  }

  /** `Array.from(dates).sort()`: the days ascending (ISO `YYYY-MM-DD` text sorts as the day numbers do). */
  method AscendingDays(dates: set<int>) returns (timeline: seq<int>)
    ensures StrictlyIncreasing(timeline)
    ensures forall d :: d in timeline <==> d in dates
  {
    var rest := dates;
    timeline := [];
    while rest != {}
      invariant rest <= dates
      invariant StrictlyIncreasing(timeline)
      invariant forall d :: d in timeline <==> d in dates && d !in rest
      decreases |rest|
    {
      var d := Pick(rest);
      timeline := InsertDay(d, timeline);
      rest := rest - {d};
    }
  }

  /**
    `processAnalyticsData`: per service, the sums of its items and the point
    of each day (a later item for a day overwriting an earlier one); and the
    distinct days of all items, ascending.
  */
  method ProcessAnalyticsData(analytics: seq<AnalyticsItem>) returns (report: AnalyticsReport)
    ensures report.services == Summarize(analytics)
    ensures StrictlyIncreasing(report.timeline)
    ensures forall d :: d in report.timeline <==> d in DaysOf(analytics)
  {
    var serviceData: map<string, ServiceSeries> := map[];
    var dates: set<int> := {};
    var i := 0;
    while i < |analytics|
      invariant 0 <= i <= |analytics|
      invariant serviceData == FoldAll(analytics[..i])
      invariant dates == DaysOf(analytics[..i])
    {
      var item := analytics[i];
      ghost var before := serviceData;
      assert analytics[..i + 1] == analytics[..i] + [item];
      ItemsStep(analytics[..i], item);
      dates := dates + {item.day};
      if item.service !in serviceData {
        serviceData := serviceData[item.service := ServiceSeries(0.0, 0.0, map[])];
      }
      var cur := serviceData[item.service];
      serviceData := serviceData[item.service := ServiceSeries(cur.totalCost + item.cost, cur.totalUsage + item.usage,
                                                               cur.dailyData[item.day := DayPoint(item.cost, item.usage)])];
      assert serviceData == Fold(before, item) by { FoldCases(before, item); }
      i := i + 1;
    }
    assert analytics[..|analytics|] == analytics;
    FoldAllIsSummarize(analytics);
    var timeline := AscendingDays(dates);
    report := AnalyticsReport(serviceData, timeline);
  }

  /** No analytics documents give no services and an empty timeline. */
  lemma EmptyAnalytics()
    ensures Summarize([]) == map[] && DaysOf([]) == {}
  {
    assert ServicesOf([]) == {};
  }

  // ----- updateProject ----------------------------------------------------

  /** The `$set` of an update after casting and the update validators; None leaves a path alone. */
  datatype ProjectUpdate = ProjectUpdate(name: Option<string>, description: Option<Option<string>>,
                                         status: Option<ProjectStatus>, company: Option<Id>)

  /** Casts the body's schema paths (`name`, `description`, `status`, `company`) and validates them. */
  function CastProjectUpdate(body: Body): (r: Result<ProjectUpdate, SaveError>)
    ensures r.Success? ==> (r.value.name.Some? <==> Get(body, "name") != Undefined)
    ensures r.Success? ==> (r.value.description.Some? <==> Get(body, "description") != Undefined)
    ensures r.Success? ==> (r.value.status.Some? <==> Get(body, "status") != Undefined)
    ensures r.Success? ==> (r.value.company.Some? <==> Get(body, "company") != Undefined)
    ensures r.Success? && r.value.name.Some? ==>
              Get(body, "name").Text? && r.value.name.value == Trim(Get(body, "name").s) && r.value.name.value != []
    ensures r.Success? && r.value.description.Some? && r.value.description.value.Some? ==>
              Trimmed(r.value.description.value.value)
    ensures Get(body, "name") == Null || Get(body, "company") == Null ==> r.Failure?
    ensures Get(body, "name").Text? && Trim(Get(body, "name").s) == [] ==> r.Failure?
    ensures Get(body, "status").Text? && Get(body, "status").s !in {"active", "archived"} ==> r.Failure?
    ensures r.Success? && r.value.status.Some? ==> Get(body, "status") == Text(ProjectStatusName(r.value.status.value))
  {
    var name, description, status, company := Get(body, "name"), Get(body, "description"), Get(body, "status"), Get(body, "company");
    var n :- if name == Undefined then Success(None)
             else var x :- RequiredTrimmed(name, "name"); Success(Some(x));
    var d :- if description == Undefined then Success(None)
             else var y :- OptionalTrimmed(description, "description"); Success(Some(y));
    var s :- if status == Undefined then Success(None)
             else if status.Text? && ParseProjectStatus(status.s).Some? then Success(Some(ParseProjectStatus(status.s).value))
             else Failure(ValidationError("status"));
    var c :- if company == Undefined then Success(None)
             else if company == Null then Failure(ValidationError("company"))
             else if ParseId(company).Some? then Success(Some(ParseId(company).value))
             else Failure(CastError("company"));
    Success(ProjectUpdate(n, d, s, c))
  }

  /** The project after the `$set`: only the supplied paths change. */
  function ApplyProjectUpdate(p: Project, u: ProjectUpdate): (r: Project)
    ensures r.id == p.id && r.createdAt == p.createdAt
    ensures r.name == (if u.name.Some? then u.name.value else p.name)
    ensures r.description == (if u.description.Some? then u.description.value else p.description)
    ensures r.status == (if u.status.Some? then u.status.value else p.status)
    ensures r.company == (if u.company.Some? then u.company.value else p.company)
  {
    p.(name := if u.name.Some? then u.name.value else p.name,
       description := if u.description.Some? then u.description.value else p.description,
       status := if u.status.Some? then u.status.value else p.status,
       company := if u.company.Some? then u.company.value else p.company)
  }

  /** An update that passed the validators leaves a valid project valid. */
  lemma UpdateKeepsProjectValid(p: Project, body: Body)
    requires ValidProject(p) && CastProjectUpdate(body).Success?
    ensures ValidProject(ApplyProjectUpdate(p, CastProjectUpdate(body).value))
  {
  }

  /** Replacing a project by one with the same id keeps the ids distinct. */
  lemma ReplaceKeepsIds(ps: seq<Project>, k: nat, q: Project)
    requires k < |ps| && q.id == ps[k].id && DistinctProjectIds(ps)
    ensures DistinctProjectIds(ps[k := q])
  {
    var ns := ps[k := q];
    forall i, j | 0 <= i < j < |ns|
      ensures ns[i].id != ns[j].id
    {
      assert ns[i].id == ps[i].id && ns[j].id == ps[j].id;
    }
  }

  /**
    `updateProject`: a malformed id or a body the validators refuse gives 500
    before the lookup; a project the company does not own is 404; nothing
    changes unless the update succeeds.
  */
  method UpdateProject(db: Db, company: Id, projectId: string, body: Body) returns (reply: Reply<Project>)
    requires db.Valid()
    modifies db`projects
    ensures db.Valid()
    ensures ParseId(Text(projectId)).None? || CastProjectUpdate(body).Failure? ==>
      reply == Err(500, UpdateFailed) && db.projects == old(db.projects)
    ensures ParseId(Text(projectId)).Some? && CastProjectUpdate(body).Success? ==>
      var k := FindOwnedProject(old(db.projects), ParseId(Text(projectId)).value, company);
      (k.None? ==> reply == Err(404, ProjectNotFound) && db.projects == old(db.projects))
      && (k.Some? ==> db.projects == old(db.projects)[k.value := ApplyProjectUpdate(old(db.projects)[k.value], CastProjectUpdate(body).value)]
                      && reply == Ok(200, db.projects[k.value]))
  {
    var id := ParseId(Text(projectId));
    var u := CastProjectUpdate(body);
    if id.None? || u.Failure? {
      return Err(500, UpdateFailed);
    }
    var k := FindOwnedProject(db.projects, id.value, company);
    if k.None? {
      return Err(404, ProjectNotFound);
    }
    var updated := ApplyProjectUpdate(db.projects[k.value], u.value);
    UpdateKeepsProjectValid(db.projects[k.value], body);
    ReplaceKeepsIds(db.projects, k.value, updated);
    db.projects := db.projects[k.value := updated];
    reply := Ok(200, updated);
  }

  // ----- archiveProject ---------------------------------------------------

  /** The projects after `archiveProject`, or None for the 404 of a project the company does not own. */
  function ArchiveIn(ps: seq<Project>, company: Id, id: Id): (r: Option<seq<Project>>)
    ensures r.None? <==> forall i :: 0 <= i < |ps| ==> !OwnedProject(ps[i], id, company)
    ensures r.Some? ==> exists k :: 0 <= k < |ps| && OwnedProject(ps[k], id, company)
                                && r.value == ps[k := ps[k].(status := Archived)]
  {
    match FindOwnedProject(ps, id, company)
    case None => None
    case Some(k) => Some(ps[k := ps[k].(status := Archived)])
  }

  /** Archiving an archived project succeeds again and changes nothing. */
  lemma ArchiveIdempotent(ps: seq<Project>, company: Id, id: Id)
    requires ArchiveIn(ps, company, id).Some?
    ensures ArchiveIn(ArchiveIn(ps, company, id).value, company, id) == ArchiveIn(ps, company, id)
  {
    var k := FindOwnedProject(ps, id, company).value;
    var once := ArchiveIn(ps, company, id).value;
    assert once == ps[k := ps[k].(status := Archived)];
    assert OwnedProject(once[k], id, company);
    assert forall j :: 0 <= j < k ==> once[j] == ps[j];
    var k' := FindOwnedProject(once, id, company).value;
    assert k' == k;
    assert once[k := once[k].(status := Archived)] == once;
  }

  method ArchiveProject(db: Db, company: Id, projectId: string) returns (reply: Reply<string>)
    requires db.Valid()
    modifies db`projects
    ensures db.Valid()
    ensures ParseId(Text(projectId)).None? ==> reply == Err(500, ArchiveFailed) && db.projects == old(db.projects)
    ensures ParseId(Text(projectId)).Some? ==>
      var r := ArchiveIn(old(db.projects), company, ParseId(Text(projectId)).value);
      (r.None? ==> reply == Err(404, ProjectNotFound) && db.projects == old(db.projects))
      && (r.Some? ==> reply == Ok(200, ArchivedMessage) && db.projects == r.value)
  {
    var id := ParseId(Text(projectId));
    if id.None? {
      return Err(500, ArchiveFailed);
    }
    var r := ArchiveIn(db.projects, company, id.value);
    if r.None? {
      return Err(404, ProjectNotFound);
    }
    var k := FindOwnedProject(db.projects, id.value, company).value;
    ReplaceKeepsIds(db.projects, k, db.projects[k].(status := Archived));
    db.projects := r.value;
    reply := Ok(200, ArchivedMessage);
  }
}
