/**
  The CostData aggregation pipelines the controllers run, as functions over
  the stored records: `$match` on company, project and date, then `$group`
  with `_id: null` (one total), `_id: '$service_name'` (one group per
  service) or `_id: <day>` (one group per calendar day, sorted by day).
*/
module Usage {
  import opened Wrappers
  import opened Models
  import opened Query

  const DayMs: int := 86400000

  /** The UTC calendar day of an instant (`$dateToString` with `%Y-%m-%d`, as a day number). */
  function DayOf(t: Time): int {
    t / DayMs
  }

  /** `$match: { company?, project, date: { $gte: since } }`; no company means the match omits it. */
  predicate InScope(c: CostRecord, company: Option<Id>, project: Id, since: Time) {
    (company.None? || c.company == company.value) && c.project == project && c.date >= since
  }

  function Scope(rs: seq<CostRecord>, company: Option<Id>, project: Id, since: Time): (r: seq<CostRecord>)
    ensures |r| <= |rs|
    ensures forall i :: 0 <= i < |r| ==> InScope(r[i], company, project, since) && r[i] in rs
    ensures forall i :: 0 <= i < |rs| && InScope(rs[i], company, project, since) ==> rs[i] in r
    ensures forall i :: 0 <= i < |rs| ==>
      multiset(r)[rs[i]] == if InScope(rs[i], company, project, since) then multiset(rs)[rs[i]] else 0
    ensures Subsequence(r, rs)
  {
    Filter(rs, c => InScope(c, company, project, since))
  }

  lemma ScopeAppend(rs: seq<CostRecord>, x: CostRecord, company: Option<Id>, project: Id, since: Time)
    ensures Scope(rs + [x], company, project, since)
         == Scope(rs, company, project, since) + (if InScope(x, company, project, since) then [x] else [])
  {
    FilterAppend(rs, x, c => InScope(c, company, project, since));
  }

  /**
    A BSON value as `$match` sees it. An aggregation pipeline does not cast
    its filter, so the `x-project-id` header reaches `$match` as a string,
    while the stored `project` path is an ObjectId; BSON values of different
    types are never equal.
  */
  datatype Bson = ObjectIdValue(id: Id) | StringValue(s: string)

  /** The `$match` stage as written: the stored ObjectId against the uncast header text. */
  predicate InScopeAsWritten(c: CostRecord, company: Id, header: string, since: Time) {
    c.company == company && ObjectIdValue(c.project) == StringValue(header) && c.date >= since
  }

  /** The records the month-to-date pipelines match as written: none, whatever is stored. */
  function ScopeAsWritten(rs: seq<CostRecord>, company: Id, header: string, since: Time): (r: seq<CostRecord>)
    ensures r == []
  {
    Filter(rs, c => InScopeAsWritten(c, company, header, since))
  }

  /** A record of the project is matched by value, yet the header text matches nothing. */
  lemma HeaderMatchesNothing(c: CostRecord, company: Id, header: string, since: Time)
    requires c.company == company && c.date >= since
    ensures Scope([c], Some(company), c.project, since) == [c]
    ensures ScopeAsWritten([c], company, header, since) == []
  {
    assert InScope([c][0], Some(company), c.project, since);
  }

  /** `$sum: '$cost'` over all records. */
  function SumCost(rs: seq<CostRecord>): real {
    if rs == [] then 0.0 else SumCost(rs[..|rs| - 1]) + rs[|rs| - 1].cost
  }

  predicate AllValid(rs: seq<CostRecord>) {
    forall i :: 0 <= i < |rs| ==> ValidCost(rs[i])
  }

  /** Stored costs are non-negative, so every total is. */
  lemma {:induction false} SumCostNonNegative(rs: seq<CostRecord>)
    requires AllValid(rs)
    ensures SumCost(rs) >= 0.0
  {
    if rs != [] {
      SumCostNonNegative(rs[..|rs| - 1]);
    }
  }

  /** `$sum: '$cost'` over the records of one service. */
  function ServiceCost(rs: seq<CostRecord>, service: string): real {
    if rs == [] then 0.0
    else
      var last := rs[|rs| - 1];
      ServiceCost(rs[..|rs| - 1], service) + (if last.serviceName == service then last.cost else 0.0)
  }

  /** `$sum: '$usage_quantity'` over the records of one service. */
  function ServiceUsage(rs: seq<CostRecord>, service: string): real {
    if rs == [] then 0.0
    else
      var last := rs[|rs| - 1];
      ServiceUsage(rs[..|rs| - 1], service) + (if last.serviceName == service then last.usage else 0.0)
  }

  /** The number of records of one service (the divisor of `$avg`). */
  function ServiceCount(rs: seq<CostRecord>, service: string): nat {
    if rs == [] then 0
    else
      var last := rs[|rs| - 1];
      ServiceCount(rs[..|rs| - 1], service) + (if last.serviceName == service then 1 else 0)
  }

  /** Stored costs are non-negative, so every per-service total is. */
  lemma {:induction false} ServiceCostNonNegative(rs: seq<CostRecord>, service: string)
    ensures AllValid(rs) ==> ServiceCost(rs, service) >= 0.0
  {
    if rs != [] {
      ServiceCostNonNegative(rs[..|rs| - 1], service);
    }
  }

  /** `$match` on company, project and `date >= since`, then `$sum: '$cost'` over one service (`|| 0` when nothing matches). */
  function ServiceCostSince(rs: seq<CostRecord>, company: Id, project: Id, service: string, since: Time): real {
    ServiceCost(Scope(rs, Some(company), project, since), service)
  }

  /** The month-to-date cost of a service as written: always 0. */
  function ServiceCostSinceAsWritten(rs: seq<CostRecord>, company: Id, header: string, service: string,
                                     since: Time): (r: real)
    ensures r == 0.0
  {
    ServiceCost(ScopeAsWritten(rs, company, header, since), service)
  }

  lemma ServiceCostAppend(rs: seq<CostRecord>, x: CostRecord, service: string)
    ensures ServiceCost(rs + [x], service) == ServiceCost(rs, service) + (if x.serviceName == service then x.cost else 0.0)
  {
    assert (rs + [x])[..|rs|] == rs;
  }

  /** A service with no record has a zero total, as the `|| { total_cost: 0 }` fallbacks assume. */
  lemma {:induction false} ServiceCostAbsent(rs: seq<CostRecord>, service: string)
    requires forall i :: 0 <= i < |rs| ==> rs[i].serviceName != service
    ensures ServiceCost(rs, service) == 0.0 && ServiceUsage(rs, service) == 0.0 && ServiceCount(rs, service) == 0
  {
    if rs != [] {
      ServiceCostAbsent(rs[..|rs| - 1], service);
    }
  }

  /** `$avg: '$cost'` over all records, None when there are none. */
  function AverageCost(rs: seq<CostRecord>): (r: Option<real>)
    ensures r.None? <==> rs == []
  {
    if rs == [] then None else Some(SumCost(rs) / (|rs| as real))
  }

  // ----- $group by service ----------------------------------------------

  /** One output document of `$group: { _id: '$service_name', ... }`. */
  datatype ServiceTotal = ServiceTotal(service: string, totalCost: real, totalUsage: real, averageCost: real)

  predicate Distinct(names: seq<string>) {
    forall i, j :: 0 <= i < j < |names| ==> names[i] != names[j]
  }

  /** The distinct service names of the records; `$group` promises no order, and this one lists them as they first occur. */
  function ServiceNames(rs: seq<CostRecord>): (r: seq<string>)
    ensures Distinct(r)
    ensures forall i :: 0 <= i < |rs| ==> rs[i].serviceName in r
    ensures forall k :: 0 <= k < |r| ==> exists i :: 0 <= i < |rs| && rs[i].serviceName == r[k]
  {
    if rs == [] then []
    else
      var prefix := rs[..|rs| - 1];
      var names := ServiceNames(prefix);
      assert forall i :: 0 <= i < |prefix| ==> prefix[i] == rs[i];
      if rs[|rs| - 1].serviceName in names then names else names + [rs[|rs| - 1].serviceName]
  }

  function TotalOf(rs: seq<CostRecord>, service: string): ServiceTotal {
    var n := ServiceCount(rs, service);
    ServiceTotal(service, ServiceCost(rs, service), ServiceUsage(rs, service),
                 if n == 0 then 0.0 else ServiceCost(rs, service) / (n as real))
  }

  /** `$group` by service: one document per distinct service, with its sums. */
  function GroupByService(rs: seq<CostRecord>): (r: seq<ServiceTotal>)
    ensures |r| == |ServiceNames(rs)|
    ensures forall k :: 0 <= k < |r| ==> r[k] == TotalOf(rs, ServiceNames(rs)[k])
  {
    var names := ServiceNames(rs);
    seq(|names|, k requires 0 <= k < |names| => TotalOf(rs, names[k]))
  }

  /** `reduce((acc, g) => acc + g.total_cost, 0)` over group documents. */
  function SumTotals(gs: seq<ServiceTotal>): real {
    if gs == [] then 0.0 else SumTotals(gs[..|gs| - 1]) + gs[|gs| - 1].totalCost
  }

  /** The per-service totals of a list of service names. */
  function SumOverNames(rs: seq<CostRecord>, names: seq<string>): real {
    if names == [] then 0.0 else SumOverNames(rs, names[..|names| - 1]) + ServiceCost(rs, names[|names| - 1])
  }

  lemma {:induction false} SumOverNamesAppend(rs: seq<CostRecord>, x: CostRecord, names: seq<string>)
    requires Distinct(names)
    ensures SumOverNames(rs + [x], names) == SumOverNames(rs, names) + (if x.serviceName in names then x.cost else 0.0)
  {
    if names != [] {
      var prefix := names[..|names| - 1];
      assert Distinct(prefix);
      SumOverNamesAppend(rs, x, prefix);
      ServiceCostAppend(rs, x, names[|names| - 1]);
      assert names == prefix + [names[|names| - 1]];
      assert x.serviceName in names <==> x.serviceName in prefix || x.serviceName == names[|names| - 1];
    }
  }

  lemma {:induction false} SumOverCoveringNames(rs: seq<CostRecord>, names: seq<string>)
    requires Distinct(names)
    requires forall i :: 0 <= i < |rs| ==> rs[i].serviceName in names
    ensures SumOverNames(rs, names) == SumCost(rs)
  {
    if rs == [] {
      SumOverNamesOfNothing(names);
    } else {
      var prefix := rs[..|rs| - 1];
      assert rs == prefix + [rs[|rs| - 1]];
      SumOverCoveringNames(prefix, names);
      SumOverNamesAppend(prefix, rs[|rs| - 1], names);
    }
  }

  lemma {:induction false} SumOverNamesOfNothing(names: seq<string>)
    ensures SumOverNames([], names) == 0.0
  {
    if names != [] {
      SumOverNamesOfNothing(names[..|names| - 1]);
    }
  }

  lemma {:induction false} SumTotalsOfGroups(rs: seq<CostRecord>, k: nat)
    requires k <= |ServiceNames(rs)|
    ensures SumTotals(GroupByService(rs)[..k]) == SumOverNames(rs, ServiceNames(rs)[..k])
  {
    if k > 0 {
      SumTotalsOfGroups(rs, k - 1);
      PrefixOfPrefix(GroupByService(rs), k);
      PrefixOfPrefix(ServiceNames(rs), k);
    }
  }

  /** The per-service totals add up to the total of all records: grouping loses and repeats no cost. */
  lemma GroupTotalsPartitionCost(rs: seq<CostRecord>)
    ensures SumTotals(GroupByService(rs)) == SumCost(rs)
  {
    var gs := GroupByService(rs);
    var names := ServiceNames(rs);
    SumTotalsOfGroups(rs, |names|);
    assert gs[..|names|] == gs;
    assert names[..|names|] == names;
    SumOverCoveringNames(rs, names);
  }

  /** `find(u => u._id === service)` on the grouped documents. */
  function FindGroup(gs: seq<ServiceTotal>, service: string): Option<ServiceTotal> {
    if gs == [] then None
    else
      var earlier := FindGroup(gs[..|gs| - 1], service);
      if earlier.Some? then earlier
      else if gs[|gs| - 1].service == service then Some(gs[|gs| - 1])
      else None
  }

  lemma {:induction false} FindGroupIn(gs: seq<ServiceTotal>, service: string, k: nat)
    requires k < |gs| && gs[k].service == service
    requires forall i, j :: 0 <= i < j < |gs| ==> gs[i].service != gs[j].service
    ensures FindGroup(gs, service) == Some(gs[k])
  {
    if k < |gs| - 1 {
      FindGroupIn(gs[..|gs| - 1], service, k);
    } else {
      FindGroupNone(gs[..|gs| - 1], service);
    }
  }

  lemma {:induction false} FindGroupNone(gs: seq<ServiceTotal>, service: string)
    requires forall i :: 0 <= i < |gs| ==> gs[i].service != service
    ensures FindGroup(gs, service) == None
  {
    if gs != [] {
      FindGroupNone(gs[..|gs| - 1], service);
    }
  }

  /**
    Looking a service up among the grouped documents, with the `{ total_cost: 0,
    total_usage: 0 }` fallback, yields exactly that service's sums.
  */
  lemma LookupGroupedService(rs: seq<CostRecord>, service: string)
    ensures var g := FindGroup(GroupByService(rs), service);
            (g.Some? <==> exists i :: 0 <= i < |rs| && rs[i].serviceName == service)
            && (if g.Some? then g.value.totalCost else 0.0) == ServiceCost(rs, service)
            && (if g.Some? then g.value.totalUsage else 0.0) == ServiceUsage(rs, service)
  {
    var gs := GroupByService(rs);
    var names := ServiceNames(rs);
    if exists i :: 0 <= i < |rs| && rs[i].serviceName == service {
      var i :| 0 <= i < |rs| && rs[i].serviceName == service;
      var k :| 0 <= k < |names| && names[k] == service;
      FindGroupIn(gs, service, k);
    } else {
      FindGroupNone(gs, service);
      ServiceCostAbsent(rs, service);
    }
  }

  // ----- $group by day, sorted by day -----------------------------------

  predicate StrictlyIncreasing(s: seq<int>) {
    forall i, j :: 0 <= i < j < |s| ==> s[i] < s[j]
  }

  /** Adds a day to an ascending list of distinct days. */
  function InsertDay(d: int, s: seq<int>): (r: seq<int>)
    requires StrictlyIncreasing(s)
    ensures StrictlyIncreasing(r)
    ensures forall x :: x in r <==> x in s || x == d
    ensures r != [] && (r[0] == d || (s != [] && r[0] == s[0]))
  {
    if s == [] then [d]
    else if d < s[0] then [d] + s
    else if d == s[0] then s
    else
      var rest := InsertDay(d, s[1..]);
      assert s == [s[0]] + s[1..];
      [s[0]] + rest
  }

  /** Some record is dated on `day`. */
  predicate RecordOn(rs: seq<CostRecord>, day: int) {
    exists i :: 0 <= i < |rs| && DayOf(rs[i].date) == day
  }

  /** The distinct days of the records, ascending. */
  function Days(rs: seq<CostRecord>): (r: seq<int>)
    ensures StrictlyIncreasing(r)
    ensures forall i :: 0 <= i < |rs| ==> DayOf(rs[i].date) in r
    ensures forall k :: 0 <= k < |r| ==> RecordOn(rs, r[k])
  {
    if rs == [] then []
    else
      var prefix := rs[..|rs| - 1];
      var ps := Days(prefix);
      DaysStep(prefix, rs[|rs| - 1], ps);
      LastSplit(rs);
      InsertDay(DayOf(rs[|rs| - 1].date), ps)
  }

  lemma DaysStep(prefix: seq<CostRecord>, last: CostRecord, ps: seq<int>)
    requires StrictlyIncreasing(ps)
    requires forall i :: 0 <= i < |prefix| ==> DayOf(prefix[i].date) in ps
    requires forall k :: 0 <= k < |ps| ==> RecordOn(prefix, ps[k])
    ensures var rs, r := prefix + [last], InsertDay(DayOf(last.date), ps);
            (forall i :: 0 <= i < |rs| ==> DayOf(rs[i].date) in r)
            && forall k :: 0 <= k < |r| ==> RecordOn(rs, r[k])
  {
    var rs, r := prefix + [last], InsertDay(DayOf(last.date), ps);
    forall i | 0 <= i < |rs|
      ensures DayOf(rs[i].date) in r
    {
      if i < |prefix| {
        assert rs[i] == prefix[i];
      }
    }
    forall k | 0 <= k < |r|
      ensures RecordOn(rs, r[k])
    {
      assert r[k] in r;
      if r[k] == DayOf(last.date) {
        assert DayOf(rs[|prefix|].date) == r[k];
      } else {
        var j :| 0 <= j < |ps| && ps[j] == r[k];
        var i :| 0 <= i < |prefix| && DayOf(prefix[i].date) == ps[j];
        assert rs[i] == prefix[i];
      }
    }
  }

  /** `$sum: '$cost'` over the records of one day. */
  function DayCost(rs: seq<CostRecord>, day: int): real {
    if rs == [] then 0.0
    else
      var last := rs[|rs| - 1];
      DayCost(rs[..|rs| - 1], day) + (if DayOf(last.date) == day then last.cost else 0.0)
  }

  /** One output document of the per-day pipeline. */
  datatype DailyCost = DailyCost(day: int, cost: real)

  /** `$group` by day, then `$sort: { _id: 1 }`. */
  function DailyCosts(rs: seq<CostRecord>): (r: seq<DailyCost>)
    ensures |r| == |Days(rs)|
    ensures forall k :: 0 <= k < |r| ==> r[k].day == Days(rs)[k]
    ensures forall i, j :: 0 <= i < j < |r| ==> r[i].day < r[j].day
    ensures forall k :: 0 <= k < |r| ==> r[k].cost == DayCost(rs, r[k].day)
  {
    var days := Days(rs);
    seq(|days|, k requires 0 <= k < |days| => DailyCost(days[k], DayCost(rs, days[k])))
  }

  /** Every record's day has its document in the per-day output. */
  lemma DailyCostsCoverRecords(rs: seq<CostRecord>, i: nat)
    requires i < |rs|
    ensures exists k :: 0 <= k < |DailyCosts(rs)| && DailyCosts(rs)[k].day == DayOf(rs[i].date)
  {
    var days := Days(rs);
    assert DayOf(rs[i].date) in days;
    var k :| 0 <= k < |days| && days[k] == DayOf(rs[i].date);
    assert DailyCosts(rs)[k].day == days[k];
  }

  /** `reduce((acc, d) => acc + d.daily_cost, 0)` over per-day documents. */
  function SumDaily(ds: seq<DailyCost>): real {
    if ds == [] then 0.0 else SumDaily(ds[..|ds| - 1]) + ds[|ds| - 1].cost
  }

  /** The per-day totals of a list of days. */
  function SumOverDays(rs: seq<CostRecord>, days: seq<int>): real {
    if days == [] then 0.0 else SumOverDays(rs, days[..|days| - 1]) + DayCost(rs, days[|days| - 1])
  }

  lemma DayCostAppend(rs: seq<CostRecord>, x: CostRecord, day: int)
    ensures DayCost(rs + [x], day) == DayCost(rs, day) + (if DayOf(x.date) == day then x.cost else 0.0)
  {
    assert (rs + [x])[..|rs|] == rs;
  }

  lemma {:induction false} SumOverDaysAppend(rs: seq<CostRecord>, x: CostRecord, days: seq<int>)
    requires StrictlyIncreasing(days)
    ensures SumOverDays(rs + [x], days) == SumOverDays(rs, days) + (if DayOf(x.date) in days then x.cost else 0.0)
  {
    if days != [] {
      var prefix := days[..|days| - 1];
      var d := days[|days| - 1];
      assert StrictlyIncreasing(prefix);
      SumOverDaysAppend(rs, x, prefix);
      DayCostAppend(rs, x, d);
      assert days == prefix + [d];
      assert d !in prefix by {
        forall k | 0 <= k < |prefix|
          ensures prefix[k] != d
        {
          assert prefix[k] == days[k];
        }
      }
      assert DayOf(x.date) in days <==> DayOf(x.date) in prefix || DayOf(x.date) == d;
    }
  }

  lemma {:induction false} SumOverDaysOfNothing(days: seq<int>)
    ensures SumOverDays([], days) == 0.0
  {
    if days != [] {
      SumOverDaysOfNothing(days[..|days| - 1]);
    }
  }

  lemma {:induction false} SumOverCoveringDays(rs: seq<CostRecord>, days: seq<int>)
    requires StrictlyIncreasing(days)
    requires forall i :: 0 <= i < |rs| ==> DayOf(rs[i].date) in days
    ensures SumOverDays(rs, days) == SumCost(rs)
  {
    if rs == [] {
      SumOverDaysOfNothing(days);
    } else {
      var prefix := rs[..|rs| - 1];
      assert rs == prefix + [rs[|rs| - 1]];
      SumOverCoveringDays(prefix, days);
      SumOverDaysAppend(prefix, rs[|rs| - 1], days);
    }
  }

  lemma {:induction false} SumDailyOfDays(rs: seq<CostRecord>, ds: seq<DailyCost>, days: seq<int>)
    requires |ds| == |days| && forall k :: 0 <= k < |ds| ==> ds[k].cost == DayCost(rs, days[k])
    ensures SumDaily(ds) == SumOverDays(rs, days)
  {
    if ds != [] {
      SumDailyOfDays(rs, ds[..|ds| - 1], days[..|days| - 1]);
    }
  }

  /** The per-day totals add up to the total of all records: grouping by day loses and repeats no cost. */
  lemma DailyTotalsPartitionCost(rs: seq<CostRecord>)
    ensures SumDaily(DailyCosts(rs)) == SumCost(rs)
  {
    SumDailyOfDays(rs, DailyCosts(rs), Days(rs));
    SumOverCoveringDays(rs, Days(rs));
  }

  /** There is a per-day document exactly when there is a record. */
  lemma DailyCostsEmpty(rs: seq<CostRecord>)
    ensures DailyCosts(rs) == [] <==> rs == []
  {
    if rs != [] {
      assert DayOf(rs[0].date) in Days(rs);
    }
  }

  // ----- one service --------------------------------------------------------

  /** The records of one service, in order (`$match: { service_name }`). */
  function ServiceRecords(rs: seq<CostRecord>, service: string): (r: seq<CostRecord>)
    ensures forall i :: 0 <= i < |r| ==> r[i].serviceName == service && r[i] in rs
    ensures forall i :: 0 <= i < |rs| && rs[i].serviceName == service ==> rs[i] in r
    ensures forall i :: 0 <= i < |rs| ==>
      multiset(r)[rs[i]] == if rs[i].serviceName == service then multiset(rs)[rs[i]] else 0
    ensures Subsequence(r, rs)
  {
    Filter(rs, (c: CostRecord) => c.serviceName == service)
  }

  lemma SumCostAppend(rs: seq<CostRecord>, x: CostRecord)
    ensures SumCost(rs + [x]) == SumCost(rs) + x.cost
  {
    assert (rs + [x])[..|rs|] == rs;
  }

  lemma ServiceRecordsAppend(rs: seq<CostRecord>, x: CostRecord, service: string)
    ensures ServiceRecords(rs + [x], service) == ServiceRecords(rs, service) + (if x.serviceName == service then [x] else [])
  {
    FilterAppend(rs, x, (c: CostRecord) => c.serviceName == service);
  }

  /** Dropping the last record drops it from the matches, if it matched. */
  lemma ServiceRecordsStep(rs: seq<CostRecord>, service: string)
    requires rs != []
    ensures var last := rs[|rs| - 1];
            ServiceRecords(rs, service) == ServiceRecords(rs[..|rs| - 1], service) + (if last.serviceName == service then [last] else [])
  {
    ServiceRecordsAppend(rs[..|rs| - 1], rs[|rs| - 1], service);
    assert rs == rs[..|rs| - 1] + [rs[|rs| - 1]];
  }

  /** Appending a record when it matches adds its cost and one to the count. */
  lemma CountedStep(prefix: seq<CostRecord>, last: CostRecord, service: string)
    ensures var r := prefix + (if last.serviceName == service then [last] else []);
            SumCost(r) == SumCost(prefix) + (if last.serviceName == service then last.cost else 0.0)
            && |r| == |prefix| + (if last.serviceName == service then 1 else 0)
  {
    if last.serviceName == service {
      SumCostAppend(prefix, last);
    } else {
      assert prefix + [] == prefix;
    }
  }

  /** Matching on the service and summing equals the per-service sum over all records. */
  lemma {:induction false} ServiceRecordsSum(rs: seq<CostRecord>, service: string)
    ensures SumCost(ServiceRecords(rs, service)) == ServiceCost(rs, service)
    ensures |ServiceRecords(rs, service)| == ServiceCount(rs, service)
  {
    if rs != [] {
      var init, last := rs[..|rs| - 1], rs[|rs| - 1];
      ServiceRecordsSum(init, service);
      ServiceRecordsStep(rs, service);
      CountedStep(ServiceRecords(init, service), last, service);
    }
  }

  /** A later start date selects fewer records, so with non-negative costs a smaller total. */
  lemma {:induction false} ServiceCostShrinks(rs: seq<CostRecord>, company: Id, project: Id, service: string,
                                              later: Time, earlier: Time)
    requires AllValid(rs) && earlier <= later
    ensures ServiceCostSince(rs, company, project, service, later) <= ServiceCostSince(rs, company, project, service, earlier)
  {
    if rs != [] {
      var prefix, x := rs[..|rs| - 1], rs[|rs| - 1];
      assert rs == prefix + [x];
      AllValidPrefix(rs);
      ServiceCostShrinks(prefix, company, project, service, later, earlier);
      ShrinkStep(prefix, x, company, project, service, later, earlier);
    }
  }

  lemma AllValidPrefix(rs: seq<CostRecord>)
    requires rs != [] && AllValid(rs)
    ensures AllValid(rs[..|rs| - 1]) && ValidCost(rs[|rs| - 1])
  {
    var prefix := rs[..|rs| - 1];
    forall i | 0 <= i < |prefix|
      ensures ValidCost(prefix[i])
    {
      assert prefix[i] == rs[i];
    }
  }

  lemma ShrinkStep(prefix: seq<CostRecord>, x: CostRecord, company: Id, project: Id, service: string,
                   later: Time, earlier: Time)
    requires ValidCost(x) && earlier <= later
    requires ServiceCostSince(prefix, company, project, service, later)
          <= ServiceCostSince(prefix, company, project, service, earlier)
    ensures ServiceCostSince(prefix + [x], company, project, service, later)
         <= ServiceCostSince(prefix + [x], company, project, service, earlier)
  {
    SinceAppend(prefix, x, company, project, service, later);
    SinceAppend(prefix, x, company, project, service, earlier);
  }

  /** One more record adds its cost to the service's total when it is in scope. */
  lemma SinceAppend(prefix: seq<CostRecord>, x: CostRecord, company: Id, project: Id, service: string, since: Time)
    ensures ServiceCostSince(prefix + [x], company, project, service, since)
         == ServiceCostSince(prefix, company, project, service, since)
            + (if InScope(x, Some(company), project, since) && x.serviceName == service then x.cost else 0.0)
  {
    var l := Scope(prefix, Some(company), project, since);
    ScopeAppend(prefix, x, Some(company), project, since);
    ServiceCostAppend(l, x, service);
    assert l + [] == l;
  }

  // ----- latest record ----------------------------------------------------

  /** The `date` of `findOne(...).sort({ date: -1 })`, or None when nothing matches. */
  function LatestDate(rs: seq<CostRecord>): (r: Option<Time>)
    ensures r.None? <==> rs == []
    ensures r.Some? ==> exists i :: 0 <= i < |rs| && rs[i].date == r.value
    ensures r.Some? ==> forall i :: 0 <= i < |rs| ==> rs[i].date <= r.value
  {
    if rs == [] then None
    else
      var prefix := rs[..|rs| - 1];
      var earlier := LatestDate(prefix);
      var last := rs[|rs| - 1].date;
      assert forall i :: 0 <= i < |prefix| ==> prefix[i] == rs[i];
      if earlier.Some? && earlier.value >= last then earlier else Some(last)
  }
}
