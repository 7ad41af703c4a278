/** The guards in front of the budget create and update handlers. */
module BudgetMiddleware {
  import opened Wrappers
  import opened Js
  import opened Models
  import opened Http
  import opened Query

  const MissingBudgetData: string := "Missing required budget data"
  const AmountNotPositive: string := "Budget amount must be greater than 0"
  const NoUpdateData: string := "No update data provided"
  const ThresholdOutOfRange: string := "Alert threshold must be between 0 and 100"
  const DuplicateBudget: string := "Active budget already exists for this service"
  const DuplicateCheckFailed: string := "Failed to check duplicate budget"

  /** `validateBudgetData`: early-return guards on POST and PUT bodies; the first failing guard answers. */
  function ValidateBudgetData(m: Method, body: Body): (v: Verdict)
    ensures m != POST && m != PUT ==> v == Next
    ensures v.Reject? ==> v.status == 400
    ensures m == POST ==>
      (v == Reject(400, MissingBudgetData) <==>
         !Truthy(Get(body, "budget_amount")) || !Truthy(Get(body, "budget_period")) || !Truthy(Get(body, "service_name")))
    ensures m == POST ==>
      (v == Next <==>
         Truthy(Get(body, "budget_amount")) && Truthy(Get(body, "budget_period")) && Truthy(Get(body, "service_name"))
         && !AtMost(Get(body, "budget_amount"), 0.0))
    ensures m == PUT ==> (v == Reject(400, NoUpdateData) <==> |body| == 0)
    ensures m == PUT ==>
      (v == Next <==>
         |body| != 0
         && (Get(body, "budget_amount") == Undefined || !AtMost(Get(body, "budget_amount"), 0.0))
         && (Get(body, "alert_threshold") == Undefined
             || (!Less(Get(body, "alert_threshold"), 0.0) && !Greater(Get(body, "alert_threshold"), 100.0))))
  {
    if m == POST then
      var amount, period, service := Get(body, "budget_amount"), Get(body, "budget_period"), Get(body, "service_name");
      if !Truthy(amount) || !Truthy(period) || !Truthy(service) then Reject(400, MissingBudgetData)
      else if AtMost(amount, 0.0) then Reject(400, AmountNotPositive)
      else Next
    else if m == PUT then
      var amount, threshold := Get(body, "budget_amount"), Get(body, "alert_threshold");
      if |body| == 0 then Reject(400, NoUpdateData)
      else if amount != Undefined && AtMost(amount, 0.0) then Reject(400, AmountNotPositive)
      else if threshold != Undefined && (Less(threshold, 0.0) || Greater(threshold, 100.0)) then Reject(400, ThresholdOutOfRange)
      else Next
    else Next
  }

  /** A POST amount of 0 is falsy, so it is reported missing rather than non-positive. */
  lemma ZeroAmountIsMissing(body: Body)
    requires Get(body, "budget_amount") == Num(0.0)
    ensures ValidateBudgetData(POST, body) == Reject(400, MissingBudgetData)
  {
  }

  /** A negative POST amount that is present is reported as non-positive. */
  lemma NegativeAmountRejected(body: Body, x: real)
    requires Get(body, "budget_amount") == Num(x) && x < 0.0
    requires Truthy(Get(body, "budget_period")) && Truthy(Get(body, "service_name"))
    ensures ValidateBudgetData(POST, body) == Reject(400, AmountNotPositive)
  {
  }

  /** A negative amount given as decimal text compares as a number and is reported as non-positive. */
  lemma NegativeDecimalTextRejected(body: Body)
    requires Get(body, "budget_amount") == Text("-0.5")
    requires Truthy(Get(body, "budget_period")) && Truthy(Get(body, "service_name"))
    ensures ValidateBudgetData(POST, body) == Reject(400, AmountNotPositive)
    ensures ValidateBudgetData(PUT, body) == Reject(400, AmountNotPositive)
  {
    DecimalTextNumbers();
  }

  /** The PUT threshold bounds are inclusive: 0 and 100 pass the guard. */
  lemma ThresholdBoundsPass(body: Body, t: real)
    requires Get(body, "alert_threshold") == Num(t) && (t == 0.0 || t == 100.0)
    requires Get(body, "budget_amount") == Undefined
    ensures ValidateBudgetData(PUT, body) == Next
  {
  }

  /** The budgets `checkDuplicateBudget` looks for. */
  predicate ActiveBudgetFor(b: Budget, company: Id, project: Id, service: string) {
    b.company == company && b.project == project && b.serviceName == service && b.status == BudgetStatus.Active
  }

  /** `Budget.findOne` for the active budget of a service; the query value is trimmed like the path. */
  function FindActiveBudget(bs: seq<Budget>, company: Id, project: Id, service: string): (r: Option<nat>)
    ensures r.Some? ==> r.value < |bs| && ActiveBudgetFor(bs[r.value], company, project, Trim(service))
    ensures r.None? <==> forall i :: 0 <= i < |bs| ==> !ActiveBudgetFor(bs[i], company, project, Trim(service))
  {
    FindFirst(bs, b => ActiveBudgetFor(b, company, project, Trim(service)))
  }

  /** `checkDuplicateBudget`: rejects when an active budget already exists for the service. */
  function CheckDuplicateBudget(bs: seq<Budget>, company: Id, project: Id, body: Body): (v: Verdict)
    ensures v == Next || v == Reject(400, DuplicateBudget) || v == Reject(500, DuplicateCheckFailed)
    ensures Get(body, "service_name").Text? ==>
      (v == Reject(400, DuplicateBudget) <==>
         exists i :: 0 <= i < |bs| && ActiveBudgetFor(bs[i], company, project, Trim(Get(body, "service_name").s)))
    ensures Get(body, "service_name").Text? ==> v != Reject(500, DuplicateCheckFailed)
  {
    match Get(body, "service_name")
    case Text(s) => if FindActiveBudget(bs, company, project, s).Some? then Reject(400, DuplicateBudget) else Next
    case Undefined => Next
    case Null => Next
    case _ => Reject(500, DuplicateCheckFailed)
  }

  /** An inactive budget never blocks a new one. */
  lemma InactiveBudgetsDoNotBlock(bs: seq<Budget>, company: Id, project: Id, body: Body)
    requires Get(body, "service_name").Text?
    requires forall i :: 0 <= i < |bs| ==> bs[i].status == Inactive
    ensures CheckDuplicateBudget(bs, company, project, body) == Next
  {
  }

  /** No two active budgets share a company, project and service. */
  predicate NoDuplicateActiveBudgets(bs: seq<Budget>) {
    forall i, j :: 0 <= i < j < |bs| && bs[i].status == BudgetStatus.Active && bs[j].status == BudgetStatus.Active ==>
      !(bs[i].company == bs[j].company && bs[i].project == bs[j].project && bs[i].serviceName == bs[j].serviceName)
  }
}
