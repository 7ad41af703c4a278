/**
  The cost-data handlers: recording one usage record (saved before the budget
  check), the 30-day cost forecast, the month's top-3 summary and the
  spike rule.
*/
module CostDataController {
  import opened Wrappers
  import opened Js
  import opened Models
  import opened Http
  import opened Query
  import opened Usage
  import opened Store
  import opened BudgetMiddleware
  import opened CostDataMiddleware

  const RecordFailed: string := "Failed to record API usage"
  const BudgetLimitExceeded: string := "Budget limit exceeded"
  const SpikeMessagePrefix: string := "Cost spike detected for "
  const ForecastConfidence: real := 0.8
  const ForecastTrend: string := "decreasing"

  // ----- recordApiUsage ---------------------------------------------------

  /**
    The response of `recordApiUsage`: 201 with the saved record, 400 with the
    month's total and the budget limit, or an error status and message.
  */
  datatype UsageReply =
    | Recorded(record: CostRecord)
    | OverBudget(currentCost: real, budgetLimit: real)
    | Failed(status: nat, error: string)

  function UsageStatus(r: UsageReply): nat {
    match r
    case Recorded(_) => 201
    case OverBudget(_, _) => 400
    case Failed(status, _) => status
  }

  /** What `recordApiUsage` saves, if anything, and how it answers. */
  datatype UsageOutcome = UsageOutcome(saved: Option<CostRecord>, reply: UsageReply)

  /** The record `recordApiUsage` builds from the body, dated now. */
  function UsageRecord(company: Id, project: Id, body: Body, now: Time): Result<CostRecord, SaveError> {
    NewCostRecord(company, Some(project), Get(body, "service_name"), Get(body, "cost"),
                  Get(body, "usage_quantity"), Get(body, "unit"), Get(body, "region"), None, now)
  }

  /**
    `recordApiUsage` on the budgets `bs` and the records `costs` stored before
    the call. The budget lookup trims the service name; the month-to-date
    aggregate, run after the save, matches it as given.
  */
  function RecordUsage(bs: seq<Budget>, costs: seq<CostRecord>, company: Id, project: Id, body: Body,
                       now: Time, monthStart: Time): (o: UsageOutcome)
    requires Truthy(Get(body, "service_name"))
    ensures o.saved.None? <==> o.reply.Failed?
    ensures o.reply.Failed? ==> o.reply == Failed(500, RecordFailed)
    ensures o.saved.Some? ==> Get(body, "service_name").Text?
                              && UsageRecord(company, project, body, now) == Success(o.saved.value)
    ensures o.reply.Recorded? ==> o.reply.record == o.saved.value
    ensures o.saved.Some? ==> ValidCost(o.saved.value)
  {
    var service := Get(body, "service_name");
    if !service.Text? then UsageOutcome(None, Failed(500, RecordFailed))
    else
      var budget := FindActiveBudget(bs, company, project, service.s);
      match UsageRecord(company, project, body, now)
      case Failure(_) => UsageOutcome(None, Failed(500, RecordFailed))
      case Success(c) =>
        var total := ServiceCostSince(costs + [c], company, project, service.s, monthStart);
        if budget.Some? && total >= bs[budget.value].amount then
          UsageOutcome(Some(c), OverBudget(total, bs[budget.value].amount))
        else
          UsageOutcome(Some(c), Recorded(c))
  }

  /**
    The answer is 400 exactly when an active budget of the trimmed service
    exists whose amount the month-to-date total, new record included,
    reaches (with at most one active budget per service, as the POST route
    keeps it).
  */
  lemma BudgetDecision(bs: seq<Budget>, costs: seq<CostRecord>, company: Id, project: Id, body: Body,
                       now: Time, monthStart: Time)
    requires Truthy(Get(body, "service_name"))
    ensures var o := RecordUsage(bs, costs, company, project, body, now, monthStart);
            o.reply.OverBudget? ==>
              exists k :: 0 <= k < |bs| && ActiveBudgetFor(bs[k], company, project, Trim(Get(body, "service_name").s))
                          && o.reply.budgetLimit == bs[k].amount
                          && o.reply.currentCost == ServiceCostSince(costs + [o.saved.value], company, project,
                                                                     Get(body, "service_name").s, monthStart)
                          && o.reply.currentCost >= bs[k].amount
    ensures var o := RecordUsage(bs, costs, company, project, body, now, monthStart);
            o.reply.Recorded? && NoDuplicateActiveBudgets(bs) ==>
              forall k :: 0 <= k < |bs| && ActiveBudgetFor(bs[k], company, project, Trim(Get(body, "service_name").s)) ==>
                ServiceCostSince(costs + [o.saved.value], company, project, Get(body, "service_name").s, monthStart)
                < bs[k].amount
  {
    var o := RecordUsage(bs, costs, company, project, body, now, monthStart);
    if o.saved.Some? {
      var s := Get(body, "service_name").s;
      var found := FindActiveBudget(bs, company, project, s);
      var total := ServiceCostSince(costs + [o.saved.value], company, project, s, monthStart);
      if found.Some? && total >= bs[found.value].amount {
        assert o.reply == OverBudget(total, bs[found.value].amount);
      } else {
        assert o.reply == Recorded(o.saved.value);
        UniqueActiveBudget(bs, company, project, Trim(s), found);
      }
    }
  }

  /** With at most one active budget per service, the one `findOne` returns is the only one. */
  lemma UniqueActiveBudget(bs: seq<Budget>, company: Id, project: Id, service: string, found: Option<nat>)
    requires found.Some? ==> found.value < |bs| && ActiveBudgetFor(bs[found.value], company, project, service)
    requires found.None? ==> forall i :: 0 <= i < |bs| ==> !ActiveBudgetFor(bs[i], company, project, service)
    ensures NoDuplicateActiveBudgets(bs) && found.Some? ==>
      forall i :: 0 <= i < |bs| && ActiveBudgetFor(bs[i], company, project, service) ==> i == found.value
  {
  }

  /**
    The month-to-date total the check compares includes the new record itself,
    when its trimmed name is the name as sent and the month has begun.
  */
  lemma NewRecordCounts(bs: seq<Budget>, costs: seq<CostRecord>, company: Id, project: Id, body: Body,
                        now: Time, monthStart: Time)
    requires Truthy(Get(body, "service_name"))
    requires RecordUsage(bs, costs, company, project, body, now, monthStart).saved.Some?
    ensures var c := RecordUsage(bs, costs, company, project, body, now, monthStart).saved.value;
            var s := Get(body, "service_name").s;
            ServiceCostSince(costs + [c], company, project, s, monthStart)
            == ServiceCostSince(costs, company, project, s, monthStart)
               + (if Trim(s) == s && monthStart <= now then c.cost else 0.0)
  {
    var c := RecordUsage(bs, costs, company, project, body, now, monthStart).saved.value;
    var s := Get(body, "service_name").s;
    var scope := Scope(costs, Some(company), project, monthStart);
    ScopeAppend(costs, c, Some(company), project, monthStart);
    ServiceCostAppend(scope, c, s);
    assert scope + [] == scope;
  }

  /**
    `recordApiUsage`: the outcome `RecordUsage` describes (budget lookup,
    record, month-to-date total over the stored records and the new one),
    with the record written to the store. The record stays saved when the
    answer is 400.
  */
  method RecordApiUsage(db: Db, company: Id, project: Id, body: Body, now: Time, monthStart: Time)
    returns (reply: UsageReply)
    requires db.Valid() && Truthy(Get(body, "service_name"))
    modifies db`costs
    ensures db.Valid()
    ensures var o := RecordUsage(old(db.budgets), old(db.costs), company, project, body, now, monthStart);
            reply == o.reply && db.costs == old(db.costs) + (if o.saved.Some? then [o.saved.value] else [])
  {
    var o := RecordUsage(db.budgets, db.costs, company, project, body, now, monthStart);
    if o.saved.Some? {
      db.InsertCosts([o.saved.value]);
    }
    reply := o.reply;
  }

  /** The POST /usage route: `validateCostData`, then `recordApiUsage`. */
  method PostUsage(db: Db, company: Id, project: Id, body: Body, now: Time, monthStart: Time)
    returns (reply: UsageReply)
    requires db.Valid()
    modifies db`costs
    ensures db.Valid()
    ensures ValidateCostData(body).Reject? ==>
      reply == Failed(ValidateCostData(body).status, ValidateCostData(body).error) && db.costs == old(db.costs)
    ensures ValidateCostData(body) == Next ==>
      var o := RecordUsage(old(db.budgets), old(db.costs), company, project, body, now, monthStart);
      reply == o.reply && db.costs == old(db.costs) + (if o.saved.Some? then [o.saved.value] else [])
  {
    var v := ValidateCostData(body);
    if v.Reject? {
      return Failed(v.status, v.error);
    }
    reply := RecordApiUsage(db, company, project, body, now, monthStart);
  }

  // ----- predictCosts -----------------------------------------------------

  /** The response of `predictCosts`; an empty history makes the mean NaN, here None. */
  datatype CostForecast = CostForecast(predictedCost: Option<real>, trend: string, confidence: real,
                                       history: seq<DailyCost>)

  /** The records of one service in the 30 days before now. */
  function ForecastWindow(costs: seq<CostRecord>, company: Id, project: Id, service: string, now: Time): seq<CostRecord> {
    ServiceRecords(Scope(costs, Some(company), project, now - 30 * DayMs), service)
  }

  /**
    `predictCosts`: the daily totals of the last 30 days, and 30 times their
    mean. The trend compares the prediction with itself, so it is always
    "decreasing".
  */
  function PredictCosts(costs: seq<CostRecord>, company: Id, project: Id, service: string, now: Time): (r: CostForecast)
    ensures r.predictedCost.None? <==> ForecastWindow(costs, company, project, service, now) == []
    ensures r.predictedCost.None? <==> r.history == []
    ensures r.predictedCost.Some? ==>
      r.predictedCost.value == 30.0 * (SumCost(ForecastWindow(costs, company, project, service, now)) / (|r.history| as real))
    ensures forall i, j :: 0 <= i < j < |r.history| ==> r.history[i].day < r.history[j].day
    ensures forall k :: 0 <= k < |r.history| ==>
      r.history[k].cost == DayCost(ForecastWindow(costs, company, project, service, now), r.history[k].day)
    ensures r.trend == ForecastTrend && r.confidence == ForecastConfidence
  {
    var window := ForecastWindow(costs, company, project, service, now);
    var history := DailyCosts(window);
    DailyCostsEmpty(window);
    DailyTotalsPartitionCost(window);
    var mean := if history == [] then None else Some(SumDaily(history) / (|history| as real));
    var predicted := if mean.Some? then Some(mean.value * 30.0) else None;
    var increasing := predicted.Some? && mean.Some? && predicted.value > mean.value * 30.0;
    CostForecast(predicted, if increasing then "increasing" else ForecastTrend, ForecastConfidence, history)
  }

  // ----- getCostSummary ---------------------------------------------------

  /** The response of `getCostSummary`; the `month` label is left out. */
  datatype CostSummary = CostSummary(totalCost: real, top: seq<ServiceTotal>)

  /** `$sort: { total_cost: -1 }` on the per-service documents. */
  function ByTotalCost(gs: seq<ServiceTotal>): (r: seq<ServiceTotal>)
    ensures |r| == |gs| && multiset(r) == multiset(gs)
    ensures forall i, j :: 0 <= i < j < |r| ==> r[i].totalCost >= r[j].totalCost
  {
    SortDescLength(gs, (g: ServiceTotal) => g.totalCost);
    SortDesc(gs, (g: ServiceTotal) => g.totalCost)
  }

  /** The month's per-service documents of a company's project. */
  function MonthGroups(costs: seq<CostRecord>, company: Id, project: Id, monthStart: Time): seq<ServiceTotal> {
    GroupByService(Scope(costs, Some(company), project, monthStart))
  }

  /**
    `top` holds groups ranked by total: each drawn from `groups` and kept no
    more often than it occurs there, largest first, and no group left out
    that is larger than one kept.
  */
  predicate RankedTop(groups: seq<ServiceTotal>, top: seq<ServiceTotal>) {
    && multiset(top) <= multiset(groups)
    && (forall i :: 0 <= i < |top| ==> top[i] in groups)
    && (forall i :: 0 <= i < |groups| && groups[i] !in top ==>
          forall j :: 0 <= j < |top| ==> top[j].totalCost >= groups[i].totalCost)
    && (forall i, j :: 0 <= i < j < |top| ==> top[i].totalCost >= top[j].totalCost)
  }

  /**
    `$sort: { total_cost: -1 }`, `$limit: 3` and the sum of what is kept: the
    three largest totals, largest first, and no group left out above them.
  */
  function TopThree(groups: seq<ServiceTotal>): (r: CostSummary)
    ensures |r.top| == (if |groups| <= 3 then |groups| else 3)
    ensures RankedTop(groups, r.top)
    ensures r.totalCost == SumTotals(r.top)
  {
    var sorted := ByTotalCost(groups);
    var top := Take(sorted, 3);
    SameElements(sorted, groups);
    TopRanked(groups, sorted, top);
    CostSummary(SumTotals(top), top)
  }

  /** `getCostSummary`: the top three of the month's per-service documents. */
  function GetCostSummary(costs: seq<CostRecord>, company: Id, project: Id, monthStart: Time): (r: CostSummary)
    ensures r.totalCost == SumTotals(r.top)
    ensures var groups := MonthGroups(costs, company, project, monthStart);
      |r.top| == (if |groups| <= 3 then |groups| else 3) && RankedTop(groups, r.top)
  {
    TopThree(MonthGroups(costs, company, project, monthStart))
  }

  lemma TopRanked(groups: seq<ServiceTotal>, sorted: seq<ServiceTotal>, top: seq<ServiceTotal>)
    requires multiset(sorted) == multiset(groups)
    requires forall i, j :: 0 <= i < j < |sorted| ==> sorted[i].totalCost >= sorted[j].totalCost
    requires |top| <= |sorted| && top == sorted[..|top|]
    ensures forall i :: 0 <= i < |groups| && groups[i] !in top ==>
              forall j :: 0 <= j < |top| ==> top[j].totalCost >= groups[i].totalCost
  {
    SameElements(groups, sorted);
    forall i, j | 0 <= i < |groups| && groups[i] !in top && 0 <= j < |top|
      ensures top[j].totalCost >= groups[i].totalCost
    {
      var p :| 0 <= p < |sorted| && sorted[p] == groups[i];
      assert forall q :: 0 <= q < |top| ==> top[q] == sorted[q];
      assert p >= |top|;
      assert top[j] == sorted[j];
    }
  }

  lemma {:induction false} SumTotalsConcat(u: seq<ServiceTotal>, v: seq<ServiceTotal>)
    ensures SumTotals(u + v) == SumTotals(u) + SumTotals(v)
    decreases |v|
  {
    if v == [] {
      assert u + v == u;
    } else {
      var w := v[..|v| - 1];
      SumTotalsConcat(u, w);
      assert (u + v)[..|u + v| - 1] == u + w;
      assert (u + v)[|u + v| - 1] == v[|v| - 1];
    }
  }

  /** Summing does not depend on the order of the documents. */
  lemma {:induction false} SumTotalsPermutation(a: seq<ServiceTotal>, b: seq<ServiceTotal>)
    requires multiset(a) == multiset(b)
    ensures SumTotals(a) == SumTotals(b)
    decreases |a|
  {
    if a == [] {
      assert |b| == |multiset(b)| == 0;
    } else {
      var x := a[|a| - 1];
      var a' := a[..|a| - 1];
      assert a == a' + [x];
      assert x in multiset(b);
      var j :| 0 <= j < |b| && b[j] == x;
      RemoveAt(b, j);
      SumTotalsPermutation(a', b[..j] + b[j + 1..]);
    }
  }

  /** Taking document `j` out of `b` takes it out of the multiset and its total out of the sum. */
  lemma RemoveAt(b: seq<ServiceTotal>, j: nat)
    requires j < |b|
    ensures multiset(b[..j] + b[j + 1..]) == multiset(b) - multiset{b[j]}
    ensures SumTotals(b) == SumTotals(b[..j] + b[j + 1..]) + b[j].totalCost
  {
    RemoveOne(b, j);
    SumAround(b[..j], b[j], b[j + 1..]);
  }

  /** The sum of `u + [x] + v` is that of `u + v` plus the total of `x`. */
  lemma SumAround(u: seq<ServiceTotal>, x: ServiceTotal, v: seq<ServiceTotal>)
    ensures SumTotals(u + [x] + v) == SumTotals(u + v) + x.totalCost
  {
    SumTotalsConcat(u + [x], v);
    SumTotalsConcat(u, [x]);
    SumTotalsConcat(u, v);
    assert SumTotals([x]) == x.totalCost by {
      assert [x][..0] == [];
    }
  }

  /** With at most three services, the summary's total is the month's whole cost. */
  lemma SummaryTotalIsMonthTotal(costs: seq<CostRecord>, company: Id, project: Id, monthStart: Time)
    requires |MonthGroups(costs, company, project, monthStart)| <= 3
    ensures GetCostSummary(costs, company, project, monthStart).totalCost
         == SumCost(Scope(costs, Some(company), project, monthStart))
  {
    var groups := MonthGroups(costs, company, project, monthStart);
    var sorted := ByTotalCost(groups);
    assert TopThree(groups).top == sorted;
    SumTotalsPermutation(sorted, groups);
    GroupTotalsPartitionCost(Scope(costs, Some(company), project, monthStart));
  }

  // ----- detectSpikes -----------------------------------------------------

  /** The response of `detectSpikes`; `message` is null when there is no spike. */
  datatype SpikeReport = SpikeReport(alert: bool, currentCost: real, averageCost: real, threshold: real,
                                     message: Option<string>)

  /**
    `avg_cost || 0` over the records of a service since `since`
    (the `$avg` of no records is missing).
  */
  function AverageServiceCost(costs: seq<CostRecord>, company: Id, project: Id, service: string, since: Time): (r: real)
    ensures var scope := Scope(costs, Some(company), project, since);
            r == if ServiceCount(scope, service) == 0 then 0.0
                 else ServiceCost(scope, service) / (ServiceCount(scope, service) as real)
  {
    TotalOf(Scope(costs, Some(company), project, since), service).averageCost
  }

  /**
    `detectSpikes`: the cost since one day ago against twice the average
    record cost since eight days ago (the second window starts seven days
    before the first, as `setDate` moves the same date object again).
  */
  function DetectSpikes(costs: seq<CostRecord>, company: Id, project: Id, service: string, now: Time): (r: SpikeReport)
    ensures r.currentCost == ServiceCostSince(costs, company, project, service, now - DayMs)
    ensures r.averageCost == AverageServiceCost(costs, company, project, service, now - 8 * DayMs)
    ensures r.threshold == 2.0 * r.averageCost
    ensures r.alert <==> r.currentCost > r.threshold
    ensures r.message.Some? <==> r.alert
    ensures r.alert ==> r.message == Some(SpikeMessagePrefix + service)
  {
    var yesterday := now - DayMs;
    var today := ServiceCostSince(costs, company, project, service, yesterday);
    var average := AverageServiceCost(costs, company, project, service, yesterday - 7 * DayMs);
    var spike := today > average * 2.0;
    SpikeReport(spike, today, average, average * 2.0, if spike then Some(SpikeMessagePrefix + service) else None)
  }

  /**
    With non-negative costs a spike needs at least three records in the
    eight-day window: with one or two, the day's total is at most twice their
    mean.
  */
  lemma SpikeNeedsThreeRecords(costs: seq<CostRecord>, company: Id, project: Id, service: string, now: Time)
    requires AllValid(costs)
    ensures DetectSpikes(costs, company, project, service, now).alert
            ==> ServiceCount(Scope(costs, Some(company), project, now - 8 * DayMs), service) >= 3
  {
    var week := Scope(costs, Some(company), project, now - 8 * DayMs);
    var n := ServiceCount(week, service);
    var total := ServiceCost(week, service);
    var today := ServiceCostSince(costs, company, project, service, now - DayMs);
    var average := AverageServiceCost(costs, company, project, service, now - 8 * DayMs);
    ServiceCostShrinks(costs, company, project, service, now - DayMs, now - 8 * DayMs);
    ValidScope(costs, company, project, now - 8 * DayMs);
    ServiceCostNonNegative(week, service);
    assert today <= total;
    if n == 0 {
      ServiceRecordsSum(week, service);
      assert ServiceRecords(week, service) == [];
    }
    if n <= 2 {
      AtMostTwiceMean(today, total, n);
    }
  }

  /** A part of a non-negative total of at most two costs is at most twice their mean. */
  lemma AtMostTwiceMean(part: real, total: real, n: nat)
    requires part <= total && 0.0 <= total && n <= 2 && (n == 0 ==> total == 0.0)
    ensures part <= 2.0 * (if n == 0 then 0.0 else total / (n as real))
  {
    if n == 1 {
      assert total / (n as real) == total;
    } else if n == 2 {
      assert 2.0 * (total / (n as real)) == total;
    }
  }

  lemma ValidScope(costs: seq<CostRecord>, company: Id, project: Id, since: Time)
    requires AllValid(costs)
    ensures AllValid(Scope(costs, Some(company), project, since))
  {
    var scope := Scope(costs, Some(company), project, since);
    forall i | 0 <= i < |scope|
      ensures ValidCost(scope[i])
    {
      assert scope[i] in costs;
    }
  }

  /**
    As written, the month-to-date pipeline of `recordApiUsage` matches no
    record, so a positive budget is never reported exceeded; by value, a
    single record costing the budget's amount already reaches it.
  */
  lemma LimitNeverReachedAsWritten(costs: seq<CostRecord>, c: CostRecord, company: Id, header: string,
                                   since: Time, amount: real)
    requires AllValid(costs) && amount > 0.0
    requires c.company == company && c.date >= since && c.cost >= amount
    ensures !(ServiceCostSinceAsWritten(costs + [c], company, header, c.serviceName, since) >= amount)
    ensures ServiceCostSince(costs + [c], company, c.project, c.serviceName, since) >= amount
  {
    SinceAppend(costs, c, company, c.project, c.serviceName, since);
    ValidScope(costs, company, c.project, since);
    ServiceCostNonNegative(Scope(costs, Some(company), c.project, since), c.serviceName);
  }
}
