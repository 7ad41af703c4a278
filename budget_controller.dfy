/**
  The budget handlers: create (behind the two budget guards), the usage of one
  service's budget, field-limited update, deactivation, and the list of a
  project's budgets joined with their month-to-date usage.
*/
module BudgetController {
  import opened Wrappers
  import opened Js
  import opened Models
  import opened Http
  import opened Query
  import opened Usage
  import opened Numbers
  import opened Store
  import opened BudgetMiddleware

  const CreateFailed: string := "Failed to create budget"
  const BudgetNotFound: string := "Budget not found"
  const UpdateFailed: string := "Failed to update budget"
  const DeactivateFailed: string := "Failed to deactivate budget"
  const DeactivatedMessage: string := "Budget deactivated successfully"

  // ----- createBudget -----------------------------------------------------

  /** `alert_threshold || DEFAULT_VALUES.BUDGET_ALERT_THRESHOLD`. */
  function ThresholdOrDefault(t: Value): (r: Value)
    ensures Truthy(t) ==> r == t
    ensures !Truthy(t) ==> r == Num(DefaultAlertThreshold)
  {
    if Truthy(t) then t else Num(DefaultAlertThreshold)
  }

  /** The document `createBudget` saves, or why the save fails. */
  function CreatedBudget(id: Id, company: Id, project: Id, body: Body, now: Time): (r: Result<Budget, SaveError>)
    ensures r.Success? ==> ValidBudget(r.value) && r.value.status == BudgetStatus.Active
    ensures r.Success? ==> r.value.id == id && r.value.company == company && r.value.project == project
    ensures r.Success? ==> Get(body, "service_name").Text? && r.value.serviceName == Trim(Get(body, "service_name").s)
    ensures r.Success? && !Truthy(Get(body, "alert_threshold")) ==> r.value.threshold == Some(DefaultAlertThreshold)
    ensures r.Success? && Get(body, "alert_threshold").Num? && Truthy(Get(body, "alert_threshold"))
            ==> r.value.threshold == Some(Get(body, "alert_threshold").x)
  {
    NewBudget(id, company, project, Get(body, "service_name"), Get(body, "budget_amount"),
              Get(body, "budget_period"), ThresholdOrDefault(Get(body, "alert_threshold")), now)
  }

  /** A zero threshold is falsy, so the saved budget gets the default 80 instead of failing `min: 1`. */
  lemma ZeroThresholdBecomesDefault(id: Id, company: Id, project: Id, body: Body, now: Time, s: string, a: real)
    requires Get(body, "alert_threshold") == Num(0.0)
    requires Get(body, "service_name") == Text(s) && Trim(s) != []
    requires Get(body, "budget_amount") == Num(a) && a >= 0.0
    requires Get(body, "budget_period") == Undefined
    ensures CreatedBudget(id, company, project, body, now).Success?
    ensures CreatedBudget(id, company, project, body, now).value.threshold == Some(DefaultAlertThreshold)
  {
  }

  method CreateBudget(db: Db, company: Id, project: Id, body: Body, now: Time) returns (reply: Reply<Budget>)
    requires db.Valid()
    modifies db`budgets, db`nextId
    ensures db.Valid()
    ensures var r := CreatedBudget(old(db.nextId), company, project, body, now);
            (r.Success? ==> reply == Ok(201, r.value) && db.budgets == old(db.budgets) + [r.value])
            && (r.Failure? ==> reply == Err(500, CreateFailed) && db.budgets == old(db.budgets))
  {
    var r := CreatedBudget(db.nextId, company, project, body, now);
    if r.Success? {
      db.InsertBudget(r.value);
      reply := Ok(201, r.value);
    } else {
      reply := Err(500, CreateFailed);
    }
  }

  /**
    After `checkDuplicateBudget` let a creation through, the saved budget is
    the only active one for its company, project and service.
  */
  lemma {:induction false} CreateAfterCheckKeepsActiveBudgetsUnique(bs: seq<Budget>, company: Id, project: Id,
                                                                    body: Body, id: Id, now: Time)
    requires NoDuplicateActiveBudgets(bs)
    requires CheckDuplicateBudget(bs, company, project, body) == Next
    requires CreatedBudget(id, company, project, body, now).Success?
    ensures NoDuplicateActiveBudgets(bs + [CreatedBudget(id, company, project, body, now).value])
  {
    var b := CreatedBudget(id, company, project, body, now).value;
    var s := Get(body, "service_name").s;
    assert forall i :: 0 <= i < |bs| ==> !ActiveBudgetFor(bs[i], company, project, Trim(s));
    var all := bs + [b];
    forall i, j | 0 <= i < j < |all| && all[i].status == BudgetStatus.Active && all[j].status == BudgetStatus.Active
      ensures !(all[i].company == all[j].company && all[i].project == all[j].project && all[i].serviceName == all[j].serviceName)
    {
      if j == |bs| {
        assert all[i] == bs[i] && !ActiveBudgetFor(bs[i], company, project, Trim(s));
      } else {
        assert all[i] == bs[i] && all[j] == bs[j];
      }
    }
  }

  /**
    The POST route: `validateBudgetData`, then `checkDuplicateBudget`, then
    `createBudget`. Run one request at a time, it never leaves two active
    budgets for one company, project and service.
  */
  method PostBudget(db: Db, company: Id, project: Id, body: Body, now: Time) returns (reply: Reply<Budget>)
    requires db.Valid() && NoDuplicateActiveBudgets(db.budgets)
    modifies db`budgets, db`nextId
    ensures db.Valid() && NoDuplicateActiveBudgets(db.budgets)
    ensures ValidateBudgetData(POST, body).Reject? ==>
      reply == Err(ValidateBudgetData(POST, body).status, ValidateBudgetData(POST, body).error)
      && db.budgets == old(db.budgets)
    ensures ValidateBudgetData(POST, body) == Next && CheckDuplicateBudget(old(db.budgets), company, project, body).Reject? ==>
      reply.Err? && db.budgets == old(db.budgets)
    ensures reply.Ok? ==> |db.budgets| == |old(db.budgets)| + 1 && db.budgets[..|old(db.budgets)|] == old(db.budgets)
  {
    var v := ValidateBudgetData(POST, body);
    if v.Reject? {
      return Err(v.status, v.error);
    }
    var d := CheckDuplicateBudget(db.budgets, company, project, body);
    if d.Reject? {
      return Err(d.status, d.error);
    }
    ghost var before := db.budgets;
    ghost var id := db.nextId;
    reply := CreateBudget(db, company, project, body, now);
    if reply.Ok? {
      CreateAfterCheckKeepsActiveBudgetsUnique(before, company, project, body, id, now);
      assert db.budgets[..|before|] == before;
    }
  }

  // ----- getBudgetByService -----------------------------------------------

  /** The `current_usage` object of a budget response. */
  datatype CurrentUsage = CurrentUsage(cost: real, usageQuantity: real, utilization: Option<real>)

  datatype BudgetReport = BudgetReport(budget: Budget, currentUsage: CurrentUsage)

  /** A service's month-to-date totals (zeros when it has no record) and its share of `amount`. */
  function MonthUsage(scope: seq<CostRecord>, service: string, amount: real): (u: CurrentUsage)
    ensures u.utilization.Some? <==> amount != 0.0
    ensures u.utilization.Some? ==> -0.005 <= u.cost / amount * 100.0 - u.utilization.value < 0.005
    ensures (forall i :: 0 <= i < |scope| ==> scope[i].serviceName != service) ==> u.cost == 0.0 && u.usageQuantity == 0.0
    ensures AllValid(scope) ==> u.cost >= 0.0
  {
    ServiceCostAbsentIf(scope, service);
    ServiceCostNonNegative(scope, service);
    var cost := ServiceCost(scope, service);
    CurrentUsage(cost, ServiceUsage(scope, service), Utilization(cost, amount))
  }

  lemma ServiceCostAbsentIf(scope: seq<CostRecord>, service: string)
    ensures (forall i :: 0 <= i < |scope| ==> scope[i].serviceName != service) ==>
            ServiceCost(scope, service) == 0.0 && ServiceUsage(scope, service) == 0.0
  {
    if forall i :: 0 <= i < |scope| ==> scope[i].serviceName != service {
      ServiceCostAbsent(scope, service);
    }
  }

  /**
    `getBudgetByService`: 404 unless an active budget exists for the service;
    the budget lookup trims the requested name, the usage pipeline matches it
    as given.
  */
  function GetBudgetByService(bs: seq<Budget>, costs: seq<CostRecord>, company: Id, project: Id,
                              service: string, monthStart: Time): (r: Reply<BudgetReport>)
    ensures r.Err? <==> forall i :: 0 <= i < |bs| ==> !ActiveBudgetFor(bs[i], company, project, Trim(service))
    ensures r.Err? ==> r == Err(404, BudgetNotFound)
    ensures r.Ok? ==> r.status == 200 && r.body.budget in bs
    ensures r.Ok? ==> ActiveBudgetFor(r.body.budget, company, project, Trim(service))
    ensures r.Ok? ==> r.body.currentUsage
                      == MonthUsage(Scope(costs, Some(company), project, monthStart), service, r.body.budget.amount)
  {
    match FindActiveBudget(bs, company, project, service)
    case None => Err(404, BudgetNotFound)
    case Some(k) =>
      Ok(200, BudgetReport(bs[k], MonthUsage(Scope(costs, Some(company), project, monthStart), service, bs[k].amount)))
  }

  // ----- updateBudget -----------------------------------------------------

  /**
    The `$set` of an update after casting and the update validators; None
    leaves a path alone, and a threshold set to `Some(None)` is set to null.
  */
  datatype BudgetUpdate = BudgetUpdate(amount: Option<real>, threshold: Option<Option<real>>)

  /** Builds `updates` from the supplied fields and runs the schema's validators on it. */
  function CastBudgetUpdate(body: Body): (r: Result<BudgetUpdate, SaveError>)
    ensures r.Success? ==> (r.value.amount.Some? <==> Get(body, "budget_amount") != Undefined)
    ensures r.Success? ==> (r.value.threshold.Some? <==> Get(body, "alert_threshold") != Undefined)
    ensures r.Success? && r.value.amount.Some? ==> r.value.amount.value >= 0.0
    ensures r.Success? && r.value.threshold.Some? && r.value.threshold.value.Some?
            ==> 1.0 <= r.value.threshold.value.value <= 100.0
    ensures Get(body, "budget_amount").Num? && r.Success? ==> r.value.amount == Some(Get(body, "budget_amount").x)
    ensures Get(body, "alert_threshold").Num? && r.Success? ==> r.value.threshold == Some(Some(Get(body, "alert_threshold").x))
    ensures Get(body, "alert_threshold") in {Null, Text("")} && r.Success? ==> r.value.threshold == Some(None)
    ensures (Get(body, "budget_amount") == Undefined || (Get(body, "budget_amount").Num? && Get(body, "budget_amount").x >= 0.0))
         && (Get(body, "alert_threshold") in {Undefined, Null, Text("")}
             || (Get(body, "alert_threshold").Num? && 1.0 <= Get(body, "alert_threshold").x <= 100.0))
         ==> r.Success?
  {
    var amount, threshold := Get(body, "budget_amount"), Get(body, "alert_threshold");
    var a :- if amount == Undefined then Success(None)
             else var x :- RequiredNonNegative(amount, "budget_amount"); Success(Some(x));
    var t :- if threshold == Undefined then Success(None)
             else var y :- AlertThresholdPath(threshold); Success(Some(y));
    Success(BudgetUpdate(a, t))
  }

  /** The guard lets a PUT threshold of 0 through, but the schema's `min: 1` then fails the update. */
  lemma ZeroThresholdPassesGuardFailsUpdate(body: Body)
    requires Get(body, "alert_threshold") == Num(0.0) && Get(body, "budget_amount") == Undefined
    ensures ValidateBudgetData(PUT, body) == Next
    ensures CastBudgetUpdate(body).Failure?
  {
    assert "alert_threshold" in body;
  }

  /** The budget after `$set`: only the supplied amount and threshold, and `updated_at`, change. */
  function ApplyBudgetUpdate(b: Budget, u: BudgetUpdate, now: Time): (r: Budget)
    ensures r.id == b.id && r.company == b.company && r.project == b.project && r.serviceName == b.serviceName
    ensures r.period == b.period && r.status == b.status && r.createdAt == b.createdAt && r.updatedAt == now
    ensures r.amount == (if u.amount.Some? then u.amount.value else b.amount)
    ensures r.threshold == (if u.threshold.Some? then u.threshold.value else b.threshold)
  {
    b.(amount := if u.amount.Some? then u.amount.value else b.amount,
       threshold := if u.threshold.Some? then u.threshold.value else b.threshold,
       updatedAt := now)
  }

  /**
    A PUT with `alert_threshold: null` passes the guard, since `null < 0` and
    `null > 100` are both false, and stores a null threshold.
  */
  lemma NullThresholdIsStored(body: Body, b: Budget, now: Time)
    requires Get(body, "alert_threshold") == Null && Get(body, "budget_amount") == Undefined
    ensures ValidateBudgetData(PUT, body) == Next
    ensures CastBudgetUpdate(body).Success?
    ensures ApplyBudgetUpdate(b, CastBudgetUpdate(body).value, now).threshold == None
  {
    assert "alert_threshold" in body;
  }

  /** A validated update keeps a budget valid and does not change which budgets are active for what. */
  lemma {:induction false} UpdateKeepsBudgetsSound(bs: seq<Budget>, k: nat, body: Body, now: Time)
    requires k < |bs| && ValidBudget(bs[k]) && NoDuplicateActiveBudgets(bs)
    requires CastBudgetUpdate(body).Success?
    ensures ValidBudget(ApplyBudgetUpdate(bs[k], CastBudgetUpdate(body).value, now))
    ensures NoDuplicateActiveBudgets(bs[k := ApplyBudgetUpdate(bs[k], CastBudgetUpdate(body).value, now)])
  {
    var nb := bs[k := ApplyBudgetUpdate(bs[k], CastBudgetUpdate(body).value, now)];
    forall i, j | 0 <= i < j < |nb| && nb[i].status == BudgetStatus.Active && nb[j].status == BudgetStatus.Active
      ensures !(nb[i].company == nb[j].company && nb[i].project == nb[j].project && nb[i].serviceName == nb[j].serviceName)
    {
      assert bs[i].status == nb[i].status && bs[i].company == nb[i].company && bs[i].project == nb[i].project
          && bs[i].serviceName == nb[i].serviceName;
      assert bs[j].status == nb[j].status && bs[j].company == nb[j].company && bs[j].project == nb[j].project
          && bs[j].serviceName == nb[j].serviceName;
    }
  }

  predicate OwnedBudget(b: Budget, id: Id, company: Id) {
    b.id == id && b.company == company
  }

  /** `findOneAndUpdate({ _id, company }, ...)`'s lookup. */
  function FindOwnedBudget(bs: seq<Budget>, id: Id, company: Id): (r: Option<nat>)
    ensures r.Some? ==> r.value < |bs| && OwnedBudget(bs[r.value], id, company)
    ensures r.Some? ==> forall j :: 0 <= j < r.value ==> !OwnedBudget(bs[j], id, company)
    ensures r.None? <==> forall i :: 0 <= i < |bs| ==> !OwnedBudget(bs[i], id, company)
  {
    FindFirst(bs, b => OwnedBudget(b, id, company))
  }

  /**
    `updateBudget`: a malformed id or a value the validators refuse gives 500
    before the lookup; a budget of another company gives 404; nothing changes
    unless the update succeeds.
  */
  method UpdateBudget(db: Db, company: Id, budgetId: string, body: Body, now: Time) returns (reply: Reply<Budget>)
    requires db.Valid() && NoDuplicateActiveBudgets(db.budgets)
    modifies db`budgets
    ensures db.Valid() && NoDuplicateActiveBudgets(db.budgets)
    ensures ParseId(Text(budgetId)).None? || CastBudgetUpdate(body).Failure? ==>
      reply == Err(500, UpdateFailed) && db.budgets == old(db.budgets)
    ensures ParseId(Text(budgetId)).Some? && CastBudgetUpdate(body).Success? ==>
      var k := FindOwnedBudget(old(db.budgets), ParseId(Text(budgetId)).value, company);
      (k.None? ==> reply == Err(404, BudgetNotFound) && db.budgets == old(db.budgets))
      && (k.Some? ==> db.budgets == old(db.budgets)[k.value := ApplyBudgetUpdate(old(db.budgets)[k.value], CastBudgetUpdate(body).value, now)]
                      && reply == Ok(200, db.budgets[k.value]))
  {
    var id := ParseId(Text(budgetId));
    var u := CastBudgetUpdate(body);
    if id.None? || u.Failure? {
      return Err(500, UpdateFailed);
    }
    var k := FindOwnedBudget(db.budgets, id.value, company);
    if k.None? {
      return Err(404, BudgetNotFound);
    }
    UpdateKeepsBudgetsSound(db.budgets, k.value, body, now);
    db.budgets := db.budgets[k.value := ApplyBudgetUpdate(db.budgets[k.value], u.value, now)];
    reply := Ok(200, db.budgets[k.value]);
  }

  // ----- deactivateBudget -------------------------------------------------

  /** The budgets after `deactivateBudget`, or None for the 404 of a budget the company does not own. */
  function DeactivateIn(bs: seq<Budget>, company: Id, id: Id, now: Time): (r: Option<seq<Budget>>)
    ensures r.None? <==> forall i :: 0 <= i < |bs| ==> !OwnedBudget(bs[i], id, company)
    ensures r.Some? ==> |r.value| == |bs|
    ensures r.Some? ==> exists k :: 0 <= k < |bs| && OwnedBudget(bs[k], id, company)
                                && r.value == bs[k := bs[k].(status := Inactive, updatedAt := now)]
  {
    match FindOwnedBudget(bs, id, company)
    case None => None
    case Some(k) => Some(bs[k := bs[k].(status := Inactive, updatedAt := now)])
  }

  /** Deactivating again still succeeds and leaves every budget's status as the first call left it. */
  lemma DeactivateIdempotent(bs: seq<Budget>, company: Id, id: Id, now: Time, later: Time)
    requires DeactivateIn(bs, company, id, now).Some?
    ensures var once := DeactivateIn(bs, company, id, now).value;
            var twice := DeactivateIn(once, company, id, later);
            twice.Some? && |twice.value| == |once|
            && forall i :: 0 <= i < |once| ==> twice.value[i].status == once[i].status
  {
    var k := FindOwnedBudget(bs, id, company).value;
    var once := DeactivateIn(bs, company, id, now).value;
    assert once == bs[k := bs[k].(status := Inactive, updatedAt := now)];
    assert OwnedBudget(once[k], id, company);
    assert forall j :: 0 <= j < k ==> once[j] == bs[j];
    var k' := FindOwnedBudget(once, id, company).value;
    assert k' == k;
  }

  /** Deactivation never creates an active budget. */
  lemma DeactivateKeepsBudgetsSound(bs: seq<Budget>, company: Id, id: Id, now: Time)
    requires NoDuplicateActiveBudgets(bs) && DeactivateIn(bs, company, id, now).Some?
    ensures NoDuplicateActiveBudgets(DeactivateIn(bs, company, id, now).value)
  {
    var nb := DeactivateIn(bs, company, id, now).value;
    forall i, j | 0 <= i < j < |nb| && nb[i].status == BudgetStatus.Active && nb[j].status == BudgetStatus.Active
      ensures !(nb[i].company == nb[j].company && nb[i].project == nb[j].project && nb[i].serviceName == nb[j].serviceName)
    {
      assert nb[i] == bs[i] && nb[j] == bs[j];
    }
  }

  method DeactivateBudget(db: Db, company: Id, budgetId: string, now: Time) returns (reply: Reply<string>)
    requires db.Valid() && NoDuplicateActiveBudgets(db.budgets)
    modifies db`budgets
    ensures db.Valid() && NoDuplicateActiveBudgets(db.budgets)
    ensures ParseId(Text(budgetId)).None? ==> reply == Err(500, DeactivateFailed) && db.budgets == old(db.budgets)
    ensures ParseId(Text(budgetId)).Some? ==>
      var r := DeactivateIn(old(db.budgets), company, ParseId(Text(budgetId)).value, now);
      (r.None? ==> reply == Err(404, BudgetNotFound) && db.budgets == old(db.budgets))
      && (r.Some? ==> reply == Ok(200, DeactivatedMessage) && db.budgets == r.value)
  {
    var id := ParseId(Text(budgetId));
    if id.None? {
      return Err(500, DeactivateFailed);
    }
    var r := DeactivateIn(db.budgets, company, id.value, now);
    if r.None? {
      return Err(404, BudgetNotFound);
    }
    DeactivateKeepsBudgetsSound(db.budgets, company, id.value, now);
    db.budgets := r.value;
    reply := Ok(200, DeactivatedMessage);
  }

  // ----- getProjectBudgets ------------------------------------------------

  predicate InProject(b: Budget, company: Id, project: Id) {
    b.company == company && b.project == project
  }

  /** `Budget.find({ company, project })`: every status. */
  function ProjectBudgets(bs: seq<Budget>, company: Id, project: Id): (r: seq<Budget>)
    ensures forall i :: 0 <= i < |r| ==> InProject(r[i], company, project) && r[i] in bs
    ensures forall i :: 0 <= i < |bs| && InProject(bs[i], company, project) ==> bs[i] in r
    ensures forall i :: 0 <= i < |bs| ==>
      multiset(r)[bs[i]] == if InProject(bs[i], company, project) then multiset(bs)[bs[i]] else 0
    ensures Subsequence(r, bs)
  {
    Filter(bs, b => InProject(b, company, project))
  }

  /** `.sort({ created_at: -1 })`. */
  function NewestFirst(bs: seq<Budget>): (r: seq<Budget>)
    ensures |r| == |bs| && multiset(r) == multiset(bs)
    ensures forall i, j :: 0 <= i < j < |r| ==> r[i].createdAt >= r[j].createdAt
  {
    SortDescLength(bs, (b: Budget) => b.createdAt as real);
    SortDesc(bs, (b: Budget) => b.createdAt as real)
  }

  /** One entry of the response: the budget and its service's group, or zeros. */
  function WithUsage(groups: seq<ServiceTotal>, b: Budget): BudgetReport {
    var g := FindGroup(groups, b.serviceName);
    var cost := if g.Some? then g.value.totalCost else 0.0;
    var usage := if g.Some? then g.value.totalUsage else 0.0;
    BudgetReport(b, CurrentUsage(cost, usage, Utilization(cost, b.amount)))
  }

  /** Some entry of the response is about `b`. */
  predicate Reported(r: seq<BudgetReport>, b: Budget) {
    exists i :: 0 <= i < |r| && r[i].budget == b
  }

  /** The budgets the entries of a response are about, in response order. */
  function ReportedBudgets(r: seq<BudgetReport>): (bs: seq<Budget>)
    ensures |bs| == |r| && forall i :: 0 <= i < |r| ==> bs[i] == r[i].budget
  {
    seq(|r|, i requires 0 <= i < |r| => r[i].budget)
  }

  /**
    `getProjectBudgets`: one entry per budget of the project, any status,
    newest first, each carrying its own service's month-to-date usage.
  */
  function GetProjectBudgets(bs: seq<Budget>, costs: seq<CostRecord>, company: Id, project: Id,
                             monthStart: Time): (r: seq<BudgetReport>)
    ensures |r| == |ProjectBudgets(bs, company, project)|
    ensures multiset(ReportedBudgets(r)) == multiset(ProjectBudgets(bs, company, project))
    ensures forall i :: 0 <= i < |r| ==> r[i].budget in bs && InProject(r[i].budget, company, project)
    ensures forall j :: 0 <= j < |bs| && InProject(bs[j], company, project) ==> Reported(r, bs[j])
    ensures forall i, j :: 0 <= i < j < |r| ==> r[i].budget.createdAt >= r[j].budget.createdAt
    ensures forall i :: 0 <= i < |r| ==>
      r[i].currentUsage == MonthUsage(Scope(costs, Some(company), project, monthStart), r[i].budget.serviceName, r[i].budget.amount)
  {
    var pb := ProjectBudgets(bs, company, project);
    var sorted := NewestFirst(pb);
    var scope := Scope(costs, Some(company), project, monthStart);
    var r := JoinUsage(GroupByService(scope), sorted);
    JoinedUsage(pb, sorted, scope, r);
    r
  }

  /** `budgets.map(...)`: each budget with its service's group. */
  function JoinUsage(groups: seq<ServiceTotal>, sorted: seq<Budget>): (r: seq<BudgetReport>)
    ensures |r| == |sorted| && forall i :: 0 <= i < |r| ==> r[i] == WithUsage(groups, sorted[i])
  {
    seq(|sorted|, i requires 0 <= i < |sorted| => WithUsage(groups, sorted[i]))
  }

  lemma JoinedUsage(pb: seq<Budget>, sorted: seq<Budget>, scope: seq<CostRecord>, r: seq<BudgetReport>)
    requires |sorted| == |pb| && multiset(sorted) == multiset(pb)
    requires |r| == |sorted|
    requires forall i :: 0 <= i < |r| ==> r[i] == WithUsage(GroupByService(scope), sorted[i])
    ensures forall i :: 0 <= i < |r| ==> r[i].budget == sorted[i] && r[i].budget in pb
    ensures ReportedBudgets(r) == sorted
    ensures forall x :: x in pb ==> Reported(r, x)
    ensures forall i :: 0 <= i < |r| ==> r[i].currentUsage == MonthUsage(scope, sorted[i].serviceName, sorted[i].amount)
  {
    SameElements(pb, sorted);
    forall i | 0 <= i < |r|
      ensures r[i].currentUsage == MonthUsage(scope, sorted[i].serviceName, sorted[i].amount)
    {
      LookupGroupedService(scope, sorted[i].serviceName);
    }
    forall x | x in pb
      ensures Reported(r, x)
    {
      var i :| 0 <= i < |sorted| && sorted[i] == x;
      assert r[i].budget == x;
    }
  }
}
