/**
  The usage sync: it generates simulated usage records for every day from
  the last synced record (or thirty days back) up to now, inserts them, and
  reports the last sync. `Math.random` becomes a choice within the bounds
  the source's arithmetic allows.
*/
module SyncController {
  import opened Wrappers
  import opened Js
  import opened Models
  import opened Http
  import opened Query
  import opened Usage
  import opened Store

  const SyncFailed: string := "Failed to sync data"
  const StatusFailed: string := "Failed to fetch sync status"
  const ProjectNotFound: string := "Project not found"
  const ApiCalls: string := "API_CALLS"

  /** The services the simulation emits, in emission order. */
  const Services: seq<string> := ["GPT-4", "DALL-E", "Gemini", "Claude"]
  const Regions: seq<string> := ["us-east-1", "eu-west-1", "ap-south-1"]

  /** The per-call rate of a service; services not in the table cost 0.01. */
  function SyncRate(service: string): real {
    if service == "GPT-4" then 0.03
    else if service == "DALL-E" then 0.02
    else if service == "Gemini" then 0.01
    else if service == "Claude" then 0.015
    else 0.01
  }

  /** `calculateCost`: the quantity times the service's rate. */
  function CalculateCost(service: string, quantity: real): (c: real)
    ensures quantity >= 0.0 ==> c >= 0.0
    ensures quantity > 0.0 ==> c > 0.0
    ensures service !in Services ==> c == quantity * 0.01
  {
    quantity * SyncRate(service)
  }

  /** The cost grows with the quantity, and is at most 0.03 per call. */
  lemma CalculateCostBounds(service: string, q1: real, q2: real)
    requires 0.0 <= q1 <= q2
    ensures CalculateCost(service, q1) <= CalculateCost(service, q2)
    ensures CalculateCost(service, q2) <= q2 * 0.03
  {
    var r := SyncRate(service);
    assert 0.0 < r <= 0.03;
    assert q1 * r <= q2 * r;
    assert q2 * r <= q2 * 0.03;
  }

  /** `getDay()` of an instant, in UTC: the epoch fell on a Thursday (4). */
  function Weekday(t: Time): (d: int)
    ensures 0 <= d < 7
  {
    (t / DayMs + 4) % 7
  }

  predicate IsWeekend(t: Time) {
    Weekday(t) == 0 || Weekday(t) == 6
  }

  /** A whole number of calls: 1 to 499 on a weekend, 200 to 1198 on a weekday. */
  predicate UsageBounds(usage: real, day: Time) {
    && usage.Floor as real == usage
    && (IsWeekend(day) ==> 1.0 <= usage <= 499.0)
    && (!IsWeekend(day) ==> 200.0 <= usage <= 1198.0)
  }

  /** One generated record: the service's call count on that day, priced by `calculateCost`, in one of the regions. */
  predicate SimulatedRecord(r: CostRecord, company: Id, project: Id, service: string, day: Time) {
    && r.company == company && r.project == project
    && r.serviceName == service && r.unit == ApiCalls && r.date == day
    && UsageBounds(r.usage, day) && r.cost == CalculateCost(service, r.usage)
    && r.region.Some? && r.region.value in Regions && r.resourceId.None?
  }

  /** The instant of the k-th simulated day. */
  function DayAt(start: Time, k: nat): Time {
    start + k * DayMs
  }

  /**
    What `simulateAPIUsageData` produces: for each day from `start` while it
    is not after `now`, the four services' records in service order.
  */
  predicate Simulated(rs: seq<CostRecord>, company: Id, project: Id, start: Time, now: Time) {
    && |rs| % 4 == 0
    && (forall i :: 0 <= i < |rs| ==> SimulatedRecord(rs[i], company, project, Services[i % 4], DayAt(start, i / 4)))
    && (rs != [] ==> DayAt(start, |rs| / 4 - 1) <= now)
    && DayAt(start, |rs| / 4) > now
  }

  /** The number of days from `start` to `now`, both included. */
  function DayCount(start: Time, now: Time): nat {
    if start > now then 0 else (now - start) / DayMs + 1
  }

  /** The k whose day is the last one not after `now` fixes the count. */
  lemma DayCountOf(start: Time, now: Time, k: nat)
    requires k == 0 ==> start > now
    requires k > 0 ==> DayAt(start, k - 1) <= now
    requires DayAt(start, k) > now
    ensures DayCount(start, now) == k
  {
    if k > 0 {
      var rest := now - start - (k - 1) * DayMs;
      assert 0 <= rest < DayMs;
      assert now - start == (k - 1) * DayMs + rest;
      assert (now - start) / DayMs == k - 1;
    }
  }

  /** Exactly four records for every day from `start` through `now`. */
  lemma SimulatedCount(rs: seq<CostRecord>, company: Id, project: Id, start: Time, now: Time)
    requires Simulated(rs, company, project, start, now)
    ensures |rs| == 4 * DayCount(start, now)
  {
    DayCountOf(start, now, |rs| / 4);
  }

  /** Every generated record passes the CostData schema, so `insertMany` accepts the batch. */
  lemma SimulatedValid(rs: seq<CostRecord>, company: Id, project: Id, start: Time, now: Time)
    requires Simulated(rs, company, project, start, now)
    ensures forall i :: 0 <= i < |rs| ==> ValidCost(rs[i])
  {
    forall i | 0 <= i < |rs|
      ensures ValidCost(rs[i])
    {
      var r := rs[i];
      var s := Services[i % 4];
      assert s[0] in "GDC" && s[|s| - 1] in "4Eie";
      assert Trimmed(ApiCalls);
      var reg := r.region.value;
      assert reg[0] in "uea" && reg[|reg| - 1] == '1';
    }
  }

  /** `var x :| lo <= x <= hi`, a `Math.floor(Math.random() * n) + lo`. */
  method Choose(lo: int, hi: int) returns (x: int)
    requires lo <= hi
    ensures lo <= x <= hi
  {
    x :| lo <= x <= hi;
  }

  /** `simulateAPIUsageData`: the while loop over days and the `forEach` over services. */
  method SimulateUsage(company: Id, project: Id, start: Time, now: Time) returns (rs: seq<CostRecord>)
    ensures Simulated(rs, company, project, start, now)
  {
    rs := [];
    var date := start;
    ghost var k: nat := 0;
    while date <= now
      invariant date == DayAt(start, k) && |rs| == 4 * k
      invariant k > 0 ==> DayAt(start, k - 1) <= now
      invariant forall i :: 0 <= i < |rs| ==> SimulatedRecord(rs[i], company, project, Services[i % 4], DayAt(start, i / 4))
      decreases now - date
    {
      var weekend := Weekday(date) == 0 || Weekday(date) == 6;
      for j := 0 to 4
        invariant |rs| == 4 * k + j
        invariant forall i :: 0 <= i < |rs| ==> SimulatedRecord(rs[i], company, project, Services[i % 4], DayAt(start, i / 4))
      {
        var base;
        if weekend {
          base := Choose(1, 300);
        } else {
          base := Choose(200, 999);
        }
        var extra := Choose(0, 199);
        var region := Choose(0, 2);
        var usage := (base + extra) as real;
        var service := Services[j];
        var r := CostRecord(company, project, service, CalculateCost(service, usage), usage, ApiCalls,
                            date, Some(Regions[region]), None);
        assert (4 * k + j) % 4 == j && (4 * k + j) / 4 == k;
        rs := rs + [r];
      }
      date := date + DayMs;
      k := k + 1;
    }
  }

  // ----- syncData ---------------------------------------------------------

  predicate ActiveOwned(p: Project, id: Id, company: Id) {
    p.id == id && p.company == company && p.status == ProjectStatus.Active
  }

  predicate OfProject(c: CostRecord, company: Id, project: Id) {
    c.company == company && c.project == project
  }

  function ProjectCosts(costs: seq<CostRecord>, company: Id, project: Id): seq<CostRecord> {
    Filter(costs, (c: CostRecord) => OfProject(c, company, project))
  }

  /** The latest record's date, or thirty days before now. */
  function StartDate(costs: seq<CostRecord>, company: Id, project: Id, now: Time): (t: Time)
    ensures (forall i :: 0 <= i < |costs| ==> !OfProject(costs[i], company, project)) ==> t == now - 30 * DayMs
    ensures forall i :: 0 <= i < |costs| && OfProject(costs[i], company, project) ==> costs[i].date <= t
    ensures (exists i :: 0 <= i < |costs| && OfProject(costs[i], company, project)) ==>
              exists i :: 0 <= i < |costs| && OfProject(costs[i], company, project) && costs[i].date == t
  {
    var mine := ProjectCosts(costs, company, project);
    match LatestDate(mine)
    case Some(t) =>
      assert forall i :: 0 <= i < |costs| && OfProject(costs[i], company, project) ==> costs[i] in mine;
      t
    case None =>
      now - 30 * DayMs
  }

  datatype SyncSummary = SyncSummary(recordsSynced: nat, from: Time, to: Time)

  /** `Project.findOne({ _id, company, status: "active" })`. */
  function FindActiveProject(ps: seq<Project>, id: Id, company: Id): (r: Option<nat>)
    ensures r.Some? ==> r.value < |ps| && ActiveOwned(ps[r.value], id, company)
    ensures r.None? <==> forall i :: 0 <= i < |ps| ==> !ActiveOwned(ps[i], id, company)
  {
    FindFirst(ps, (p: Project) => ActiveOwned(p, id, company))
  }

  /** `after` is `before` followed by one simulated batch. */
  predicate SyncedBatch(before: seq<CostRecord>, after: seq<CostRecord>, company: Id, project: Id, start: Time, now: Time) {
    |before| <= |after| && after[..|before|] == before && Simulated(after[|before|..], company, project, start, now)
  }

  /**
    `syncData`: a malformed id fails the cast (500); a project that is not
    the caller's active project is 404; otherwise the simulated records from
    the start date to now are inserted (none when there are none) and counted.
  */
  method SyncData(db: Db, company: Id, projectHeader: string, now: Time) returns (reply: Reply<SyncSummary>)
    requires db.Valid()
    modifies db`costs
    ensures db.Valid()
    ensures ParseId(Text(projectHeader)).None? ==> reply == Err(500, SyncFailed) && db.costs == old(db.costs)
    ensures ParseId(Text(projectHeader)).Some? ==>
      var id := ParseId(Text(projectHeader)).value;
      && (reply == Err(404, ProjectNotFound) <==> FindActiveProject(db.projects, id, company).None?)
      && (FindActiveProject(db.projects, id, company).Some? ==> reply.Ok?)
      && (reply.Err? ==> db.costs == old(db.costs))
      && (reply.Ok? ==>
            var start := StartDate(old(db.costs), company, id, now);
            && SyncedBatch(old(db.costs), db.costs, company, id, start, now)
            && reply == Ok(200, SyncSummary(|db.costs| - |old(db.costs)|, start, now)))
  {
    var parsed := ParseId(Text(projectHeader));
    if parsed.None? {
      return Err(500, SyncFailed);
    }
    var id := parsed.value;
    if FindActiveProject(db.projects, id, company).None? {
      return Err(404, ProjectNotFound);
    }
    var start := StartDate(db.costs, company, id, now);
    var generated := SimulateUsage(company, id, start, now);
    SimulatedValid(generated, company, id, start, now);
    ghost var before := db.costs;
    if |generated| > 0 {
      db.InsertCosts(generated);
    }
    assert db.costs == before + generated;
    assert db.costs[..|before|] == before && db.costs[|before|..] == generated;
    assert SyncedBatch(before, db.costs, company, id, start, now);
    reply := Ok(200, SyncSummary(|generated|, start, now));
  }

  // ----- getLastSyncStatus ------------------------------------------------

  datatype SyncStatus = SyncStatus(lastSync: Option<Time>, status: string)

  /**
    `getLastSyncStatus`: the latest record's date and "success", or null and
    "never_synced" when the project has no records; a malformed id is 500.
  */
  function GetLastSyncStatus(costs: seq<CostRecord>, company: Id, projectHeader: string): (r: Reply<SyncStatus>)
    ensures ParseId(Text(projectHeader)).None? <==> r == Err(500, StatusFailed)
    ensures r.Ok? ==> r.status == 200 && ParseId(Text(projectHeader)).Some?
    ensures r.Ok? ==>
      var id := ParseId(Text(projectHeader)).value;
      && (r.body.status == "success" <==> exists i :: 0 <= i < |costs| && OfProject(costs[i], company, id))
      && (r.body.status == "success" ==> r.body.lastSync == Some(StartDate(costs, company, id, 0)))
      && (r.body.status != "success" ==> r.body == SyncStatus(None, "never_synced"))
  {
    match ParseId(Text(projectHeader))
    case None => Err(500, StatusFailed)
    case Some(id) =>
      var mine := ProjectCosts(costs, company, id);
      assert forall i :: 0 <= i < |costs| && OfProject(costs[i], company, id) ==> costs[i] in mine;
      match LatestDate(mine)
      case Some(t) => Ok(200, SyncStatus(Some(t), "success"))
      case None => Ok(200, SyncStatus(None, "never_synced"))
  }

  /** A sync continues from the status the project reports: its start is the reported last sync. */
  lemma SyncStartsAtLastSync(costs: seq<CostRecord>, company: Id, projectHeader: string, now: Time)
    requires ParseId(Text(projectHeader)).Some?
    ensures var id := ParseId(Text(projectHeader)).value;
            var r := GetLastSyncStatus(costs, company, projectHeader);
            && (r.body.lastSync.Some? ==> StartDate(costs, company, id, now) == r.body.lastSync.value)
            && (r.body.lastSync.None? ==> StartDate(costs, company, id, now) == now - 30 * DayMs)
  {
  }
}
