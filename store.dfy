/**
  The four MongoDB collections the controllers read and write, held in memory
  in insertion order, with the ObjectId generator.
*/
module Store {
  import opened Models

  predicate DistinctBudgetIds(bs: seq<Budget>) {
    forall i, j :: 0 <= i < j < |bs| ==> bs[i].id != bs[j].id
  }

  predicate DistinctAlertIds(as_: seq<Alert>) {
    forall i, j :: 0 <= i < j < |as_| ==> as_[i].id != as_[j].id
  }

  predicate DistinctProjectIds(ps: seq<Project>) {
    forall i, j :: 0 <= i < j < |ps| ==> ps[i].id != ps[j].id
  }

  class Db {
    var budgets: seq<Budget>
    var alerts: seq<Alert>
    var costs: seq<CostRecord>
    var projects: seq<Project>
    /** The next ObjectId to hand out; every stored id is below it. */
    var nextId: nat

    /** Every stored document satisfies its schema, and ids are unique per collection. */
    ghost predicate Valid()
      reads this
    {
      && (forall i :: 0 <= i < |budgets| ==> ValidBudget(budgets[i]) && budgets[i].id < nextId)
      && (forall i :: 0 <= i < |alerts| ==> ValidAlert(alerts[i]) && alerts[i].id < nextId)
      && (forall i :: 0 <= i < |costs| ==> ValidCost(costs[i]))
      && (forall i :: 0 <= i < |projects| ==> ValidProject(projects[i]) && projects[i].id < nextId)
      && DistinctBudgetIds(budgets)
      && DistinctAlertIds(alerts)
      && DistinctProjectIds(projects)
    }

    constructor ()
      ensures Valid()
      ensures budgets == [] && alerts == [] && costs == [] && projects == [] && nextId == 0
    {
      budgets, alerts, costs, projects, nextId := [], [], [], [], 0;
    }

    /** `new Budget(...).save()` succeeded: the budget is stored under the next ObjectId. */
    method InsertBudget(b: Budget)
      requires Valid() && ValidBudget(b) && b.id == nextId
      modifies this`budgets, this`nextId
      ensures Valid()
      ensures budgets == old(budgets) + [b] && nextId == old(nextId) + 1
    {
      budgets := budgets + [b];
      nextId := nextId + 1;
    }

    /** `new Alert(...).save()` succeeded: the alert is stored under the next ObjectId. */
    method InsertAlert(a: Alert)
      requires Valid() && ValidAlert(a) && a.id == nextId
      modifies this`alerts, this`nextId
      ensures Valid()
      ensures alerts == old(alerts) + [a] && nextId == old(nextId) + 1
    {
      alerts := alerts + [a];
      nextId := nextId + 1;
    }

    /** `new Project(...).save()` succeeded: the project is stored under the next ObjectId. */
    method InsertProject(p: Project)
      requires Valid() && ValidProject(p) && p.id == nextId
      modifies this`projects, this`nextId
      ensures Valid()
      ensures projects == old(projects) + [p] && nextId == old(nextId) + 1
    {
      projects := projects + [p];
      nextId := nextId + 1;
    }

    /** `new CostData(...).save()` or `insertMany` succeeded: the records are appended. */
    method InsertCosts(cs: seq<CostRecord>)
      requires Valid() && forall i :: 0 <= i < |cs| ==> ValidCost(cs[i])
      modifies this`costs
      ensures Valid()
      ensures costs == old(costs) + cs
    {
      costs := costs + cs;
    }
  }
}
