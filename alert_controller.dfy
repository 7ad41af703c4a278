/**
  The alert handlers: the active-alert list, manual creation with its ordered
  validation, resolution, and the budget-threshold check that raises at most
  one active alert per service.
*/
module AlertController {
  import opened Wrappers
  import opened Js
  import opened Models
  import opened Http
  import opened Query
  import opened Usage
  import opened Numbers
  import opened Store

  const MissingFields: string := "Missing required fields"
  const ThresholdNotPositive: string := "Threshold must be a positive number"
  const InvalidAlertType: string := "Invalid alert type"
  const CreateAlertFailed: string := "Failed to create alert"
  const AlertNotFound: string := "Alert not found"
  const ResolveFailed: string := "Failed to resolve alert"
  const CheckFailed: string := "Failed to check budget alerts"

  // ----- getActiveAlerts --------------------------------------------------

  predicate ActiveAlertOf(a: Alert, company: Id, project: Id) {
    a.company == company && a.project == project && a.status == AlertStatus.Active
  }

  function ActiveAlertsOf(alerts: seq<Alert>, company: Id, project: Id): (r: seq<Alert>)
    ensures forall i :: 0 <= i < |r| ==> ActiveAlertOf(r[i], company, project) && r[i] in alerts
    ensures forall i :: 0 <= i < |alerts| && ActiveAlertOf(alerts[i], company, project) ==> alerts[i] in r
    ensures forall i :: 0 <= i < |alerts| ==>
      multiset(r)[alerts[i]] == if ActiveAlertOf(alerts[i], company, project) then multiset(alerts)[alerts[i]] else 0
    ensures Subsequence(r, alerts)
  {
    Filter(alerts, a => ActiveAlertOf(a, company, project))
  }

  /** `getActiveAlerts`: the active alerts of the company and project, newest first. */
  function GetActiveAlerts(alerts: seq<Alert>, company: Id, project: Id): (r: seq<Alert>)
    ensures multiset(r) == multiset(ActiveAlertsOf(alerts, company, project))
    ensures forall i :: 0 <= i < |r| ==> ActiveAlertOf(r[i], company, project) && r[i] in alerts
    ensures forall i :: 0 <= i < |alerts| && ActiveAlertOf(alerts[i], company, project) ==> alerts[i] in r
    ensures forall i, j :: 0 <= i < j < |r| ==> r[i].createdAt >= r[j].createdAt
  {
    var s := ActiveAlertsOf(alerts, company, project);
    var r := SortDesc(s, (a: Alert) => a.createdAt as real);
    SameElements(s, r);
    r
  }

  // ----- createAlert ------------------------------------------------------

  /** The three checks `createAlert` makes, in order; the first failure answers 400. */
  function ValidateAlertRequest(body: Body): (v: Verdict)
    ensures v == Next || v == Reject(400, MissingFields) || v == Reject(400, ThresholdNotPositive)
         || v == Reject(400, InvalidAlertType)
    ensures v == Reject(400, MissingFields) <==>
      !Truthy(Get(body, "service_name")) || !Truthy(Get(body, "alert_type")) || !Truthy(Get(body, "message"))
      || Get(body, "threshold") == Undefined
    ensures v == Reject(400, ThresholdNotPositive) ==> !(Get(body, "threshold").Num? && Get(body, "threshold").x > 0.0)
    ensures v == Next <==>
      Truthy(Get(body, "service_name")) && Truthy(Get(body, "message"))
      && Get(body, "threshold").Num? && Get(body, "threshold").x > 0.0
      && Get(body, "alert_type").Text? && Get(body, "alert_type").s in {"budget_threshold", "cost_spike", "system"}
  {
    var service, kind, message, threshold :=
      Get(body, "service_name"), Get(body, "alert_type"), Get(body, "message"), Get(body, "threshold");
    if !Truthy(service) || !Truthy(kind) || !Truthy(message) || threshold == Undefined then Reject(400, MissingFields)
    else if !threshold.Num? || threshold.x <= 0.0 then Reject(400, ThresholdNotPositive)
    else if !(kind.Text? && kind.s in {"budget_threshold", "cost_spike", "system"}) then Reject(400, InvalidAlertType)
    else Next
  }

  /** A threshold of 0 is present, so it fails the positivity check, not the presence check. */
  lemma ZeroThresholdNotPositive(body: Body)
    requires Truthy(Get(body, "service_name")) && Truthy(Get(body, "alert_type")) && Truthy(Get(body, "message"))
    requires Get(body, "threshold") == Num(0.0)
    ensures ValidateAlertRequest(body) == Reject(400, ThresholdNotPositive)
  {
  }

  /** `createAlert`: a rejected request stores nothing; an accepted one is stored active. */
  method CreateAlert(db: Db, company: Id, project: Id, body: Body, now: Time) returns (reply: Reply<Alert>)
    requires db.Valid()
    modifies db`alerts, db`nextId
    ensures db.Valid()
    ensures ValidateAlertRequest(body).Reject? ==>
      reply == Err(400, ValidateAlertRequest(body).error) && db.alerts == old(db.alerts)
    ensures ValidateAlertRequest(body) == Next ==>
      var r := NewAlert(old(db.nextId), company, project, Get(body, "service_name"), Get(body, "alert_type"),
                        Get(body, "message"), now);
      (r.Success? ==> reply == Ok(201, r.value) && db.alerts == old(db.alerts) + [r.value])
      && (r.Failure? ==> reply == Err(500, CreateAlertFailed) && db.alerts == old(db.alerts))
  {
    var v := ValidateAlertRequest(body);
    if v.Reject? {
      return Err(400, v.error);
    }
    var r := NewAlert(db.nextId, company, project, Get(body, "service_name"), Get(body, "alert_type"), Get(body, "message"), now);
    if r.Failure? {
      return Err(500, CreateAlertFailed);
    }
    db.InsertAlert(r.value);
    reply := Ok(201, r.value);
  }

  // ----- resolveAlert -----------------------------------------------------

  predicate OwnedAlert(a: Alert, id: Id, company: Id) {
    a.id == id && a.company == company
  }

  function FindOwnedAlert(alerts: seq<Alert>, id: Id, company: Id): (r: Option<nat>)
    ensures r.Some? ==> r.value < |alerts| && OwnedAlert(alerts[r.value], id, company)
    ensures r.None? <==> forall i :: 0 <= i < |alerts| ==> !OwnedAlert(alerts[i], id, company)
  {
    FindFirst(alerts, a => OwnedAlert(a, id, company))
  }

  /** `resolveAlert`: only an alert of the caller's company is resolved; otherwise 404 and no change. */
  method ResolveAlert(db: Db, company: Id, alertId: string, now: Time) returns (reply: Reply<Alert>)
    requires db.Valid()
    modifies db`alerts
    ensures db.Valid()
    ensures ParseId(Text(alertId)).None? ==> reply == Err(500, ResolveFailed) && db.alerts == old(db.alerts)
    ensures ParseId(Text(alertId)).Some? ==>
      var k := FindOwnedAlert(old(db.alerts), ParseId(Text(alertId)).value, company);
      (k.None? ==> reply == Err(404, AlertNotFound) && db.alerts == old(db.alerts))
      && (k.Some? ==> db.alerts == old(db.alerts)[k.value := old(db.alerts)[k.value].(status := Resolved, resolvedAt := Some(now))]
                      && reply == Ok(200, db.alerts[k.value]))
  {
    var id := ParseId(Text(alertId));
    if id.None? {
      return Err(500, ResolveFailed);
    }
    var k := FindOwnedAlert(db.alerts, id.value, company);
    if k.None? {
      return Err(404, AlertNotFound);
    }
    db.alerts := db.alerts[k.value := db.alerts[k.value].(status := Resolved, resolvedAt := Some(now))];
    reply := Ok(200, db.alerts[k.value]);
  }

  // ----- checkBudgetAlerts ------------------------------------------------

  predicate ActiveBudgetOf(b: Budget, company: Id, project: Id) {
    b.company == company && b.project == project && b.status == BudgetStatus.Active
  }

  /** `Budget.find({ company, project, budget_status: 'active' })`, in storage order. */
  function ActiveBudgets(bs: seq<Budget>, company: Id, project: Id): (r: seq<Budget>)
    ensures forall i :: 0 <= i < |r| ==> ActiveBudgetOf(r[i], company, project) && r[i] in bs
    ensures forall i :: 0 <= i < |bs| && ActiveBudgetOf(bs[i], company, project) ==> bs[i] in r
    ensures forall i :: 0 <= i < |bs| ==>
      multiset(r)[bs[i]] == if ActiveBudgetOf(bs[i], company, project) then multiset(bs)[bs[i]] else 0
    ensures Subsequence(r, bs)
  {
    Filter(bs, b => ActiveBudgetOf(b, company, project))
  }

  /** The month-to-date cost of each service, as the check looks it up. */
  function MonthTotals(costs: seq<CostRecord>, company: Id, project: Id, monthStart: Time): string -> real {
    s => ServiceCostSince(costs, company, project, s, monthStart)
  }

  /**
    `(totalCost / budget_amount) * 100 >= alert_threshold`. A null threshold
    compares as 0. With a zero amount the quotient is Infinity when some cost
    exists and NaN when none does.
  */
  predicate ReachedThreshold(total: real, amount: real, threshold: Option<real>) {
    var t := if threshold.Some? then threshold.value else 0.0;
    if amount == 0.0 then total > 0.0 else total / amount * 100.0 >= t
  }

  /** A null threshold compares as 0, so any spending against a positive amount reaches it. */
  lemma NullThresholdAlwaysReached(total: real, amount: real)
    requires total >= 0.0 && amount > 0.0
    ensures ReachedThreshold(total, amount, None)
  {
    NonNegativeQuotient(total, amount);
  }

  lemma NonNegativeQuotient(total: real, amount: real)
    requires total >= 0.0 && amount > 0.0
    ensures total / amount * 100.0 >= 0.0
  {
    assert total / amount >= 0.0;
  }

  /** The alert that blocks a new one: active, of type budget_threshold, for the same service. */
  predicate BlockingAlert(a: Alert, company: Id, project: Id, service: string) {
    a.company == company && a.project == project && a.serviceName == service
    && a.alertType == BudgetThreshold && a.status == AlertStatus.Active
  }

  predicate HasBlockingAlert(alerts: seq<Alert>, company: Id, project: Id, service: string) {
    exists i :: 0 <= i < |alerts| && BlockingAlert(alerts[i], company, project, service)
  }

  /** `Alert.findOne(...)` for the blocking alert. */
  function FindBlockingAlert(alerts: seq<Alert>, company: Id, project: Id, service: string): (r: Option<nat>)
    ensures r.Some? <==> HasBlockingAlert(alerts, company, project, service)
  {
    FindFirst(alerts, a => BlockingAlert(a, company, project, service))
  }

  /** `${pct.toFixed(2)}`, where a zero amount makes the percentage Infinity. */
  function PercentText(total: real, amount: real): string
    requires total >= 0.0 && amount >= 0.0
  {
    if amount == 0.0 then "Infinity" else Fixed2Text(total / amount * 100.0)
  }

  /** Against a positive amount, the printed percentage reads back as the utilisation rounded to hundredths. */
  lemma PercentTextValue(total: real, amount: real)
    requires total >= 0.0 && amount > 0.0
    ensures ParseDecimal(PercentText(total, amount)) == Some(Round2(total / amount * 100.0))
  {
    NonNegativeQuotient(total, amount);
    var percent := total / amount * 100.0;
    assert PercentText(total, amount) == Fixed2Text(percent);
    Fixed2TextValue(percent);
  }

  /** The message of a threshold alert: percentage used, month-to-date cost and budget amount. */
  function ThresholdMessage(b: Budget, total: real): (m: string)
    ensures |m| > |b.serviceName| && m[..|b.serviceName|] == b.serviceName
  {
    b.serviceName + " usage has reached "
    + (if total >= 0.0 && b.amount >= 0.0 then PercentText(total, b.amount) else "NaN")
    + "% of monthly budget ($" + (if total >= 0.0 then Fixed2Text(total) else "NaN")
    + "/$" + (if b.amount >= 0.0 then NumberText(b.amount) else "NaN") + ")"
  }

  /** The alert `checkBudgetAlerts` saves for a budget. */
  function ThresholdAlert(id: Id, company: Id, project: Id, b: Budget, total: real, now: Time): (a: Alert)
    ensures BlockingAlert(a, company, project, b.serviceName) && a.id == id && a.createdAt == now && a.resolvedAt == None
    ensures ValidBudget(b) ==> ValidAlert(a)
  {
    Alert(id, company, project, b.serviceName, BudgetThreshold, ThresholdMessage(b, total), AlertStatus.Active, now, None)
  }

  /** Whether the check raises an alert for budget `b` given the alerts stored so far. */
  predicate Raises(b: Budget, alerts: seq<Alert>, monthCost: string -> real, company: Id, project: Id) {
    ReachedThreshold(monthCost(b.serviceName), b.amount, b.threshold)
    && !HasBlockingAlert(alerts, company, project, b.serviceName)
  }

  /**
    The alerts the loop over `budgets` saves, in order; each budget sees the
    alerts saved for the budgets before it.
  */
  function GenerateAlerts(bs: seq<Budget>, alerts: seq<Alert>, monthCost: string -> real, company: Id, project: Id, firstId: nat, now: Time): (r: seq<Alert>)
    ensures |r| <= |bs|
    decreases |bs|
  {
    if bs == [] then []
    else
      var b := bs[0];
      if Raises(b, alerts, monthCost, company, project) then
        var a := ThresholdAlert(firstId, company, project, b, monthCost(b.serviceName), now);
        [a] + GenerateAlerts(bs[1..], alerts + [a], monthCost, company, project, firstId + 1, now)
      else
        GenerateAlerts(bs[1..], alerts, monthCost, company, project, firstId, now)
  }

  /**
    Alerts with consecutive ids from `firstId`, dated `now`, unresolved, and
    each an active budget_threshold alert of the company and project.
  */
  predicate FreshThresholdAlerts(r: seq<Alert>, company: Id, project: Id, firstId: nat, now: Time) {
    forall i :: 0 <= i < |r| ==>
      r[i].id == firstId + i && r[i].createdAt == now && r[i].resolvedAt == None
      && BlockingAlert(r[i], company, project, r[i].serviceName)
  }

  /** The alerts a run saves are fresh threshold alerts with consecutive ids. */
  lemma {:induction false} GeneratedShape(bs: seq<Budget>, alerts: seq<Alert>, monthCost: string -> real, company: Id,
                                          project: Id, firstId: nat, now: Time)
    ensures FreshThresholdAlerts(GenerateAlerts(bs, alerts, monthCost, company, project, firstId, now),
                                 company, project, firstId, now)
    decreases |bs|
  {
    if bs != [] {
      var b := bs[0];
      var gen := GenerateAlerts(bs, alerts, monthCost, company, project, firstId, now);
      if Raises(b, alerts, monthCost, company, project) {
        var a := ThresholdAlert(firstId, company, project, b, monthCost(b.serviceName), now);
        var rest := GenerateAlerts(bs[1..], alerts + [a], monthCost, company, project, firstId + 1, now);
        assert gen == [a] + rest;
        GeneratedShape(bs[1..], alerts + [a], monthCost, company, project, firstId + 1, now);
        forall i | 0 <= i < |gen|
          ensures gen[i].id == firstId + i && gen[i].createdAt == now && gen[i].resolvedAt == None
                  && BlockingAlert(gen[i], company, project, gen[i].serviceName)
        {
          if i > 0 {
            assert gen[i] == rest[i - 1];
          }
        }
      } else {
        GeneratedShape(bs[1..], alerts, monthCost, company, project, firstId, now);
      }
    }
  }

  lemma BlockingAppend(alerts: seq<Alert>, a: Alert, company: Id, project: Id, service: string)
    ensures HasBlockingAlert(alerts + [a], company, project, service)
        <==> HasBlockingAlert(alerts, company, project, service) || BlockingAlert(a, company, project, service)
  {
    var all := alerts + [a];
    if HasBlockingAlert(alerts, company, project, service) {
      var i :| 0 <= i < |alerts| && BlockingAlert(alerts[i], company, project, service);
      assert all[i] == alerts[i];
    }
    if BlockingAlert(a, company, project, service) {
      assert all[|alerts|] == a;
    }
    if HasBlockingAlert(all, company, project, service) {
      var i :| 0 <= i < |all| && BlockingAlert(all[i], company, project, service);
      if i < |alerts| {
        assert all[i] == alerts[i];
      }
    }
  }

  lemma BlockingConcat(alerts: seq<Alert>, more: seq<Alert>, company: Id, project: Id, service: string)
    requires HasBlockingAlert(alerts, company, project, service)
    ensures HasBlockingAlert(alerts + more, company, project, service)
  {
    var i :| 0 <= i < |alerts| && BlockingAlert(alerts[i], company, project, service);
    assert (alerts + more)[i] == alerts[i];
  }

  /** Some budget of service `s` in `bs` has reached its threshold. */
  predicate ReachedFor(bs: seq<Budget>, monthCost: string -> real, s: string) {
    exists k :: 0 <= k < |bs| && bs[k].serviceName == s
             && ReachedThreshold(monthCost(s), bs[k].amount, bs[k].threshold)
  }

  /** Some alert in `gen` is for service `s`. */
  predicate RaisedFor(gen: seq<Alert>, s: string) {
    exists i :: 0 <= i < |gen| && gen[i].serviceName == s
  }

  lemma ReachedForCons(bs: seq<Budget>, monthCost: string -> real, s: string)
    requires bs != []
    ensures ReachedFor(bs, monthCost, s)
        <==> ReachedFor(bs[1..], monthCost, s)
             || (bs[0].serviceName == s
                 && ReachedThreshold(monthCost(s), bs[0].amount, bs[0].threshold))
  {
    if ReachedFor(bs, monthCost, s) {
      var k :| 0 <= k < |bs| && bs[k].serviceName == s
               && ReachedThreshold(monthCost(s), bs[k].amount, bs[k].threshold);
      if k > 0 {
        assert bs[1..][k - 1] == bs[k];
      }
    }
    if ReachedFor(bs[1..], monthCost, s) {
      var k :| 0 <= k < |bs[1..]| && bs[1..][k].serviceName == s
               && ReachedThreshold(monthCost(s), bs[1..][k].amount, bs[1..][k].threshold);
      assert bs[k + 1] == bs[1..][k];
    }
  }

  lemma RaisedForCons(a: Alert, rest: seq<Alert>, s: string)
    ensures RaisedFor([a] + rest, s) <==> a.serviceName == s || RaisedFor(rest, s)
  {
    var gen := [a] + rest;
    if RaisedFor(gen, s) {
      var i :| 0 <= i < |gen| && gen[i].serviceName == s;
      if i > 0 {
        assert rest[i - 1] == gen[i];
      }
    }
    if RaisedFor(rest, s) {
      var i :| 0 <= i < |rest| && rest[i].serviceName == s;
      assert gen[i + 1] == rest[i];
    }
    assert gen[0] == a;
  }

  /**
    An alert for service `s` is raised iff no blocking alert for `s` existed
    beforehand and some active budget of `s` has reached its threshold.
  */
  lemma {:induction false} GeneratedIff(bs: seq<Budget>, alerts: seq<Alert>, monthCost: string -> real, company: Id,
                                        project: Id, firstId: nat, now: Time, s: string)
    ensures RaisedFor(GenerateAlerts(bs, alerts, monthCost, company, project, firstId, now), s)
            <==> !HasBlockingAlert(alerts, company, project, s) && ReachedFor(bs, monthCost, s)
    decreases |bs|
  {
    if bs != [] {
      var b := bs[0];
      var gen := GenerateAlerts(bs, alerts, monthCost, company, project, firstId, now);
      ReachedForCons(bs, monthCost, s);
      if Raises(b, alerts, monthCost, company, project) {
        var a := ThresholdAlert(firstId, company, project, b, monthCost(b.serviceName), now);
        var rest := GenerateAlerts(bs[1..], alerts + [a], monthCost, company, project, firstId + 1, now);
        assert gen == [a] + rest;
        RaisedForCons(a, rest, s);
        GeneratedIff(bs[1..], alerts + [a], monthCost, company, project, firstId + 1, now, s);
        BlockingAppend(alerts, a, company, project, s);
      } else {
        assert gen == GenerateAlerts(bs[1..], alerts, monthCost, company, project, firstId, now);
        GeneratedIff(bs[1..], alerts, monthCost, company, project, firstId, now, s);
      }
    }
  }

  /** No two alerts of `gen` are about the same service. */
  predicate DistinctServices(gen: seq<Alert>) {
    forall i, j :: 0 <= i < j < |gen| ==> gen[i].serviceName != gen[j].serviceName
  }

  /** An alert for a service not yet raised keeps the services distinct. */
  lemma DistinctServicesCons(a: Alert, rest: seq<Alert>)
    requires DistinctServices(rest) && !RaisedFor(rest, a.serviceName)
    ensures DistinctServices([a] + rest)
  {
    var gen := [a] + rest;
    forall i, j | 0 <= i < j < |gen|
      ensures gen[i].serviceName != gen[j].serviceName
    {
      assert gen[j] == rest[j - 1];
      if i > 0 {
        assert gen[i] == rest[i - 1];
      }
    }
  }

  /** At most one alert per service is raised in one run. */
  lemma {:induction false} OnePerService(bs: seq<Budget>, alerts: seq<Alert>, monthCost: string -> real, company: Id,
                                         project: Id, firstId: nat, now: Time)
    ensures DistinctServices(GenerateAlerts(bs, alerts, monthCost, company, project, firstId, now))
    decreases |bs|
  {
    if bs != [] {
      var b := bs[0];
      var gen := GenerateAlerts(bs, alerts, monthCost, company, project, firstId, now);
      if Raises(b, alerts, monthCost, company, project) {
        var a := ThresholdAlert(firstId, company, project, b, monthCost(b.serviceName), now);
        var rest := GenerateAlerts(bs[1..], alerts + [a], monthCost, company, project, firstId + 1, now);
        assert gen == [a] + rest;
        OnePerService(bs[1..], alerts + [a], monthCost, company, project, firstId + 1, now);
        GeneratedIff(bs[1..], alerts + [a], monthCost, company, project, firstId + 1, now, b.serviceName);
        BlockingAppend(alerts, a, company, project, b.serviceName);
        assert !RaisedFor(rest, b.serviceName);
        DistinctServicesCons(a, rest);
      } else {
        assert gen == GenerateAlerts(bs[1..], alerts, monthCost, company, project, firstId, now);
        OnePerService(bs[1..], alerts, monthCost, company, project, firstId, now);
      }
    }
  }

  /** After a run, every budget that has reached its threshold is blocked by an active alert. */
  lemma {:induction false} RunCoversReached(bs: seq<Budget>, alerts: seq<Alert>, monthCost: string -> real, company: Id,
                                            project: Id, firstId: nat, now: Time)
    ensures var after := alerts + GenerateAlerts(bs, alerts, monthCost, company, project, firstId, now);
            forall k :: 0 <= k < |bs| ==> !Raises(bs[k], after, monthCost, company, project)
    decreases |bs|
  {
    if bs != [] {
      var b := bs[0];
      var gen := GenerateAlerts(bs, alerts, monthCost, company, project, firstId, now);
      var after := alerts + gen;
      var next, nextId := alerts, firstId;
      if Raises(b, alerts, monthCost, company, project) {
        var a := ThresholdAlert(firstId, company, project, b, monthCost(b.serviceName), now);
        next, nextId := alerts + [a], firstId + 1;
        assert after == next + GenerateAlerts(bs[1..], next, monthCost, company, project, nextId, now);
        BlockingAppend(alerts, a, company, project, b.serviceName);
      }
      var rest := GenerateAlerts(bs[1..], next, monthCost, company, project, nextId, now);
      assert after == next + rest;
      RunCoversReached(bs[1..], next, monthCost, company, project, nextId, now);
      forall k | 0 <= k < |bs|
        ensures !Raises(bs[k], after, monthCost, company, project)
      {
        if k == 0 {
          if ReachedThreshold(monthCost(b.serviceName), b.amount, b.threshold) {
            assert HasBlockingAlert(next, company, project, b.serviceName);
            BlockingConcat(next, rest, company, project, b.serviceName);
          }
        } else {
          assert bs[k] == bs[1..][k - 1];
        }
      }
    }
  }

  /** When no budget can raise an alert, a run raises none. */
  lemma {:induction false} NothingRaisedWhenCovered(bs: seq<Budget>, alerts: seq<Alert>, monthCost: string -> real, company: Id,
                                                    project: Id, firstId: nat, now: Time)
    requires forall k :: 0 <= k < |bs| ==> !Raises(bs[k], alerts, monthCost, company, project)
    ensures GenerateAlerts(bs, alerts, monthCost, company, project, firstId, now) == []
    decreases |bs|
  {
    if bs != [] {
      assert !Raises(bs[0], alerts, monthCost, company, project);
      forall k | 0 <= k < |bs[1..]|
        ensures !Raises(bs[1..][k], alerts, monthCost, company, project)
      {
        assert bs[1..][k] == bs[k + 1];
      }
      NothingRaisedWhenCovered(bs[1..], alerts, monthCost, company, project, firstId, now);
    }
  }

  /** Re-running the check with the same budgets, costs and month raises no new alert. */
  lemma RerunRaisesNothing(bs: seq<Budget>, alerts: seq<Alert>, monthCost: string -> real, company: Id, project: Id, firstId: nat, now: Time, secondId: nat, later: Time)
    ensures var gen := GenerateAlerts(bs, alerts, monthCost, company, project, firstId, now);
            GenerateAlerts(bs, alerts + gen, monthCost, company, project, secondId, later) == []
  {
    var gen := GenerateAlerts(bs, alerts, monthCost, company, project, firstId, now);
    RunCoversReached(bs, alerts, monthCost, company, project, firstId, now);
    NothingRaisedWhenCovered(bs, alerts + gen, monthCost, company, project, secondId, later);
  }

  /** The alerts one budget raises given the alerts stored so far: its threshold alert when due, else none. */
  function Turn(b: Budget, alerts: seq<Alert>, monthCost: string -> real, company: Id, project: Id, id: nat, now: Time): seq<Alert> {
    if Raises(b, alerts, monthCost, company, project)
    then [ThresholdAlert(id, company, project, b, monthCost(b.serviceName), now)]
    else []
  }

  /** One turn of the loop: budget `i` either raises its alert or not, then the loop goes on. */
  lemma GenerateStep(bs: seq<Budget>, i: nat, alerts: seq<Alert>, monthCost: string -> real, company: Id, project: Id, id: nat, now: Time)
    requires i < |bs|
    ensures var t := Turn(bs[i], alerts, monthCost, company, project, id, now);
            GenerateAlerts(bs[i..], alerts, monthCost, company, project, id, now)
            == t + GenerateAlerts(bs[i + 1..], alerts + t, monthCost, company, project, id + |t|, now)
  {
    assert bs[i..][0] == bs[i] && bs[i..][1..] == bs[i + 1..];
    assert alerts + [] == alerts;
  }

  /** The body of the loop for budget `i`: the alert it saves, if any. */
  method CheckOneBudget(db: Db, bs: seq<Budget>, i: nat, monthCost: string -> real, company: Id, project: Id, now: Time)
    returns (raised: seq<Alert>)
    requires db.Valid() && i < |bs| && ValidBudget(bs[i])
    modifies db`alerts, db`nextId
    ensures db.Valid()
    ensures raised == Turn(bs[i], old(db.alerts), monthCost, company, project, old(db.nextId), now)
    ensures db.alerts == old(db.alerts) + raised && db.nextId == old(db.nextId) + |raised|
    ensures raised + GenerateAlerts(bs[i + 1..], db.alerts, monthCost, company, project, db.nextId, now)
         == GenerateAlerts(bs[i..], old(db.alerts), monthCost, company, project, old(db.nextId), now)
  {
    ghost var saved, id := db.alerts, db.nextId;
    var b := bs[i];
    var spent := monthCost(b.serviceName);
    var existing := FindBlockingAlert(db.alerts, company, project, b.serviceName);
    if ReachedThreshold(spent, b.amount, b.threshold) && existing.None? {
      var a := ThresholdAlert(db.nextId, company, project, b, spent, now);
      db.InsertAlert(a);
      raised := [a];
    } else {
      raised := [];
    }
    TurnThenRest(bs, i, saved, monthCost, company, project, id, now, raised, db.alerts, db.nextId);
  }

  /** One turn of the loop seen from the state after it: this turn's alerts, then those still to come. */
  lemma TurnThenRest(bs: seq<Budget>, i: nat, alerts: seq<Alert>, monthCost: string -> real, company: Id, project: Id,
                     id: nat, now: Time, raised: seq<Alert>, after: seq<Alert>, next: nat)
    requires i < |bs|
    requires raised == Turn(bs[i], alerts, monthCost, company, project, id, now)
    requires after == alerts + raised && next == id + |raised|
    ensures raised + GenerateAlerts(bs[i + 1..], after, monthCost, company, project, next, now)
         == GenerateAlerts(bs[i..], alerts, monthCost, company, project, id, now)
  {
    GenerateStep(bs, i, alerts, monthCost, company, project, id, now);
  }

  /** Splitting the alerts still to come into those of this turn and the rest. */
  lemma Regroup(created: seq<Alert>, raised: seq<Alert>, rest: seq<Alert>, before: seq<Alert>, target: seq<Alert>)
    requires raised + rest == before && created + before == target
    ensures (created + raised) + rest == target
  {
    assert (created + raised) + rest == created + (raised + rest);
  }

  /** Saving more alerts after those already saved. */
  lemma Extend(start: seq<Alert>, created: seq<Alert>, saved: seq<Alert>, raised: seq<Alert>)
    requires start + created == saved
    ensures start + (created + raised) == saved + raised
  {
    assert start + (created + raised) == (start + created) + raised;
  }

  /** The month-to-date cost of each service as the check's pipeline computes it, keyed by the header text. */
  function MonthTotalsAsWritten(costs: seq<CostRecord>, company: Id, header: string, monthStart: Time): string -> real {
    s => ServiceCostSinceAsWritten(costs, company, header, s, monthStart)
  }

  /** With no cost matched, utilization is 0 (or NaN for a zero amount), below any threshold of at least 1. */
  lemma NothingReachedAtZero(amount: real, t: real)
    requires amount >= 0.0 && t >= 1.0
    ensures !ReachedThreshold(0.0, amount, Some(t))
  {
    if amount > 0.0 {
      assert 0.0 / amount == 0.0;
    }
  }

  /**
    As written, the check raises no alert for budgets that carry a threshold:
    the pipeline matches no record, so every total is 0.
  */
  lemma NoThresholdAlertAsWritten(bs: seq<Budget>, alerts: seq<Alert>, costs: seq<CostRecord>, company: Id,
                                  project: Id, header: string, monthStart: Time, firstId: nat, now: Time)
    requires forall k :: 0 <= k < |bs| ==> ValidBudget(bs[k]) && bs[k].threshold.Some?
    ensures GenerateAlerts(bs, alerts, MonthTotalsAsWritten(costs, company, header, monthStart),
                           company, project, firstId, now) == []
  {
    var monthCost := MonthTotalsAsWritten(costs, company, header, monthStart);
    forall k | 0 <= k < |bs|
      ensures !Raises(bs[k], alerts, monthCost, company, project)
    {
      assert monthCost(bs[k].serviceName) == 0.0;
      NothingReachedAtZero(bs[k].amount, bs[k].threshold.value);
    }
    NothingRaisedWhenCovered(bs, alerts, monthCost, company, project, firstId, now);
  }

  /** Two budgets of different services that have both reached their thresholds raise two alerts. */
  lemma TwoDueBudgetsRaiseTwo(b1: Budget, b2: Budget, alerts: seq<Alert>, monthCost: string -> real, company: Id,
                              project: Id, firstId: nat, now: Time)
    requires b1.serviceName != b2.serviceName
    requires Raises(b1, alerts, monthCost, company, project) && Raises(b2, alerts, monthCost, company, project)
    ensures |GenerateAlerts([b1, b2], alerts, monthCost, company, project, firstId, now)| == 2
  {
    var a := ThresholdAlert(firstId, company, project, b1, monthCost(b1.serviceName), now);
    BlockingAppend(alerts, a, company, project, b2.serviceName);
    assert [b1, b2][1..] == [b2];
    assert [b2][1..] == [];
  }

  /**
    As written, budgets without a threshold still raise alerts: the month
    total reads as 0, and 0% is at least the null threshold. Two such
    budgets of different services, with positive amounts and no blocking
    alert, raise two alerts in a run that does not stop at the first.
  */
  lemma NullThresholdsRaiseTwoAsWritten(b1: Budget, b2: Budget, alerts: seq<Alert>, costs: seq<CostRecord>,
                                        company: Id, project: Id, header: string, monthStart: Time, firstId: nat,
                                        now: Time)
    requires b1.serviceName != b2.serviceName
    requires b1.threshold.None? && b2.threshold.None? && b1.amount > 0.0 && b2.amount > 0.0
    requires !HasBlockingAlert(alerts, company, project, b1.serviceName)
    requires !HasBlockingAlert(alerts, company, project, b2.serviceName)
    ensures |GenerateAlerts([b1, b2], alerts, MonthTotalsAsWritten(costs, company, header, monthStart),
                            company, project, firstId, now)| == 2
  {
    var monthCost := MonthTotalsAsWritten(costs, company, header, monthStart);
    assert monthCost(b1.serviceName) == 0.0 && monthCost(b2.serviceName) == 0.0;
    NullThresholdAlwaysReached(0.0, b1.amount);
    NullThresholdAlwaysReached(0.0, b2.amount);
    TwoDueBudgetsRaiseTwo(b1, b2, alerts, monthCost, company, project, firstId, now);
  }

  /** The active budgets of stored, valid budgets are valid. */
  lemma ActiveBudgetsValid(bs: seq<Budget>, company: Id, project: Id)
    requires forall i :: 0 <= i < |bs| ==> ValidBudget(bs[i])
    ensures forall k :: 0 <= k < |ActiveBudgets(bs, company, project)| ==> ValidBudget(ActiveBudgets(bs, company, project)[k])
  {
  }

  /** The response of `checkBudgetAlerts`. */
  datatype AlertReport = AlertReport(alertsGenerated: nat, allActiveAlerts: seq<Alert>, newAlerts: seq<Alert>)

  /** The loop of `checkBudgetAlerts`: each budget in turn saves its alert when one is due. */
  method SaveDueAlerts(db: Db, bs: seq<Budget>, monthCost: string -> real, company: Id, project: Id, now: Time)
    returns (created: seq<Alert>)
    requires db.Valid() && forall k :: 0 <= k < |bs| ==> ValidBudget(bs[k])
    modifies db`alerts, db`nextId
    ensures db.Valid()
    ensures created == GenerateAlerts(bs, old(db.alerts), monthCost, company, project, old(db.nextId), now)
    ensures db.alerts == old(db.alerts) + created && db.nextId == old(db.nextId) + |created|
  {
    ghost var start, startId := db.alerts, db.nextId;
    ghost var target := GenerateAlerts(bs, start, monthCost, company, project, startId, now);
    created := [];
    var i := 0;
    assert bs[i..] == bs;
    while i < |bs|
      invariant 0 <= i <= |bs|
      invariant db.Valid()
      invariant db.alerts == start + created && db.nextId == startId + |created|
      invariant created + GenerateAlerts(bs[i..], db.alerts, monthCost, company, project, db.nextId, now) == target
    {
      created := SaveTurn(db, bs, i, monthCost, company, project, now, start, startId, created, target);
      i := i + 1;
    }
    FinishedRun(created, bs, db.alerts, monthCost, company, project, db.nextId, now, target);
  }

  /** When no budget is left, the alerts created are the whole run. */
  lemma FinishedRun(created: seq<Alert>, bs: seq<Budget>, alerts: seq<Alert>, monthCost: string -> real,
                    company: Id, project: Id, id: nat, now: Time, target: seq<Alert>)
    requires created + GenerateAlerts(bs[|bs|..], alerts, monthCost, company, project, id, now) == target
    ensures created == target
  {
    assert bs[|bs|..] == [];
    assert created + [] == created;
  }

  /** One turn of the loop: the alerts created so far grow by the turn's alert, if any. */
  method SaveTurn(db: Db, bs: seq<Budget>, i: nat, monthCost: string -> real, company: Id, project: Id, now: Time,
                  ghost start: seq<Alert>, ghost startId: nat, created: seq<Alert>, ghost target: seq<Alert>)
    returns (grown: seq<Alert>)
    requires db.Valid() && i < |bs| && ValidBudget(bs[i])
    requires db.alerts == start + created && db.nextId == startId + |created|
    requires created + GenerateAlerts(bs[i..], db.alerts, monthCost, company, project, db.nextId, now) == target
    modifies db`alerts, db`nextId
    ensures db.Valid()
    ensures db.alerts == start + grown && db.nextId == startId + |grown|
    ensures grown + GenerateAlerts(bs[i + 1..], db.alerts, monthCost, company, project, db.nextId, now) == target
  {
    ghost var before := GenerateAlerts(bs[i..], db.alerts, monthCost, company, project, db.nextId, now);
    ghost var saved := db.alerts;
    var raised := CheckOneBudget(db, bs, i, monthCost, company, project, now);
    ghost var rest := GenerateAlerts(bs[i + 1..], db.alerts, monthCost, company, project, db.nextId, now);
    Regroup(created, raised, rest, before, target);
    Extend(start, created, saved, raised);
    grown := created + raised;
  }

  /**
    `checkBudgetAlerts`: loops over the active budgets, saving an alert when
    one is due, then lists the active alerts.
  */
  method CheckBudgetAlerts(db: Db, company: Id, project: Id, monthStart: Time, now: Time) returns (report: AlertReport)
    requires db.Valid()
    modifies db`alerts, db`nextId
    ensures db.Valid()
    ensures var gen := GenerateAlerts(ActiveBudgets(db.budgets, company, project), old(db.alerts),
                                      MonthTotals(db.costs, company, project, monthStart), company, project, old(db.nextId), now);
            report.newAlerts == gen && report.alertsGenerated == |gen|
            && db.alerts == old(db.alerts) + gen && db.nextId == old(db.nextId) + |gen|
    ensures report.allActiveAlerts == GetActiveAlerts(db.alerts, company, project)
  {
    var bs := ActiveBudgets(db.budgets, company, project);
    ActiveBudgetsValid(db.budgets, company, project);
    var created := SaveDueAlerts(db, bs, MonthTotals(db.costs, company, project, monthStart), company, project, now);
    report := AlertReport(|created|, GetActiveAlerts(db.alerts, company, project), created);
  }

  /**
    `checkBudgetAlerts` as written. `Budget.find` casts the `x-project-id`
    text `header` to the id `project`, but the month pipeline matches the
    text itself, so every month total is 0 (MonthTotalsAsWritten). Right
    after saving an alert it calls `this.sendAlertEmail`, which is not
    defined (and `this` is not bound when the route calls the handler), so
    when the company has an email the call throws, the remaining budgets are
    skipped and the answer is 500.
  */
  method CheckBudgetAlertsAsWritten(db: Db, company: Id, project: Id, header: string, monthStart: Time, now: Time,
                                    companyHasEmail: bool) returns (reply: Reply<AlertReport>)
    requires db.Valid()
    modifies db`alerts, db`nextId
    ensures db.Valid()
    ensures var gen := GenerateAlerts(ActiveBudgets(db.budgets, company, project), old(db.alerts),
                                      MonthTotalsAsWritten(db.costs, company, header, monthStart), company, project,
                                      old(db.nextId), now);
            if companyHasEmail && gen != [] then
              reply == Err(500, CheckFailed) && db.alerts == old(db.alerts) + [gen[0]] && db.nextId == old(db.nextId) + 1
            else
              reply == Ok(200, AlertReport(|gen|, GetActiveAlerts(db.alerts, company, project), gen))
              && db.alerts == old(db.alerts) + gen && db.nextId == old(db.nextId) + |gen|
  {
    var bs := ActiveBudgets(db.budgets, company, project);
    ActiveBudgetsValid(db.budgets, company, project);
    var created := SaveUntilThrow(db, bs, MonthTotalsAsWritten(db.costs, company, header, monthStart), company, project,
                                  now, companyHasEmail);
    if companyHasEmail && created != [] {
      reply := Err(500, CheckFailed);
    } else {
      reply := Ok(200, AlertReport(|created|, GetActiveAlerts(db.alerts, company, project), created));
    }
  }

  /**
    The loop of `checkBudgetAlerts` as written: when `throws`, the first
    saved alert ends it; otherwise every due alert is saved.
  */
  method SaveUntilThrow(db: Db, bs: seq<Budget>, monthCost: string -> real, company: Id, project: Id, now: Time,
                        throws: bool) returns (created: seq<Alert>)
    requires db.Valid() && forall k :: 0 <= k < |bs| ==> ValidBudget(bs[k])
    modifies db`alerts, db`nextId
    ensures db.Valid()
    ensures var gen := GenerateAlerts(bs, old(db.alerts), monthCost, company, project, old(db.nextId), now);
            created == if throws && gen != [] then [gen[0]] else gen
    ensures db.alerts == old(db.alerts) + created && db.nextId == old(db.nextId) + |created|
  {
    if throws {
      created := SaveFirstDue(db, bs, monthCost, company, project, now);
    } else {
      created := SaveDueAlerts(db, bs, monthCost, company, project, now);
    }
  }

  /** The loop up to and including the first saved alert. */
  method SaveFirstDue(db: Db, bs: seq<Budget>, monthCost: string -> real, company: Id, project: Id, now: Time)
    returns (created: seq<Alert>)
    requires db.Valid() && forall k :: 0 <= k < |bs| ==> ValidBudget(bs[k])
    modifies db`alerts, db`nextId
    ensures db.Valid()
    ensures var gen := GenerateAlerts(bs, old(db.alerts), monthCost, company, project, old(db.nextId), now);
            created == if gen != [] then [gen[0]] else []
    ensures db.alerts == old(db.alerts) + created && db.nextId == old(db.nextId) + |created|
  {
    ghost var target := GenerateAlerts(bs, db.alerts, monthCost, company, project, db.nextId, now);
    created := [];
    var i := 0;
    assert bs[i..] == bs;
    while i < |bs| && created == []
      invariant 0 <= i <= |bs|
      invariant db.Valid()
      invariant db.alerts == old(db.alerts) + created
      invariant db.nextId == old(db.nextId) + |created|
      invariant |created| <= 1
      invariant created + GenerateAlerts(bs[i..], db.alerts, monthCost, company, project, db.nextId, now) == target
    {
      ghost var id := db.nextId;
      ghost var saved := db.alerts;
      var raised := CheckOneBudget(db, bs, i, monthCost, company, project, now);
      TurnAtMostOne(bs[i], saved, monthCost, company, project, id, now);
      created := raised;
      i := i + 1;
    }
    if created != [] {
      FirstOf(created, GenerateAlerts(bs[i..], db.alerts, monthCost, company, project, db.nextId, now), target);
    } else {
      assert bs[i..] == [];
    }
  }

  /** A turn raises at most one alert. */
  lemma TurnAtMostOne(b: Budget, alerts: seq<Alert>, monthCost: string -> real, company: Id, project: Id, id: nat, now: Time)
    ensures |Turn(b, alerts, monthCost, company, project, id, now)| <= 1
  {
  }

  /** A single alert in front of the rest is the first of the whole run. */
  lemma FirstOf(created: seq<Alert>, rest: seq<Alert>, target: seq<Alert>)
    requires |created| == 1 && created + rest == target
    ensures target != [] && created == [target[0]]
  {
    assert target[0] == created[0];
  }
}
