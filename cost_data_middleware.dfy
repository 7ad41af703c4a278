/** The guard in front of the usage-recording handler. */
module CostDataMiddleware {
  import opened Js
  import opened Http

  const MissingCostData: string := "Missing required cost data"
  const NegativeCost: string := "Cost and usage quantity must be non-negative"

  /** `validateCostData`: a presence check, then a sign check. */
  function ValidateCostData(body: Body): (v: Verdict)
    ensures v == Next || v == Reject(400, MissingCostData) || v == Reject(400, NegativeCost)
    ensures v == Reject(400, MissingCostData) <==>
      !Truthy(Get(body, "service_name")) || Get(body, "cost") == Undefined || !Truthy(Get(body, "usage_quantity"))
      || !Truthy(Get(body, "unit")) || !Truthy(Get(body, "region"))
    ensures v == Next <==>
      Truthy(Get(body, "service_name")) && Get(body, "cost") != Undefined && Truthy(Get(body, "usage_quantity"))
      && Truthy(Get(body, "unit")) && Truthy(Get(body, "region"))
      && !Less(Get(body, "cost"), 0.0) && !Less(Get(body, "usage_quantity"), 0.0)
  {
    var service, cost, usage := Get(body, "service_name"), Get(body, "cost"), Get(body, "usage_quantity");
    if !Truthy(service) || cost == Undefined || !Truthy(usage) || !Truthy(Get(body, "unit")) || !Truthy(Get(body, "region")) then
      Reject(400, MissingCostData)
    else if Less(cost, 0.0) || Less(usage, 0.0) then
      Reject(400, NegativeCost)
    else
      Next
  }

  /** A negative cost given as decimal text is refused like a negative number. */
  lemma NegativeDecimalCostRejected(body: Body)
    requires Get(body, "cost") == Text("-0.5")
    requires Truthy(Get(body, "service_name")) && Truthy(Get(body, "unit")) && Truthy(Get(body, "region"))
    requires Truthy(Get(body, "usage_quantity"))
    ensures ValidateCostData(body) == Reject(400, NegativeCost)
  {
    DecimalTextNumbers();
  }

  /** A usage quantity of 0 is falsy and reads as missing, while a cost of 0 is accepted. */
  lemma ZeroUsageMissingZeroCostAccepted(body: Body)
    requires Truthy(Get(body, "service_name")) && Truthy(Get(body, "unit")) && Truthy(Get(body, "region"))
    ensures Get(body, "usage_quantity") == Num(0.0) ==> ValidateCostData(body) == Reject(400, MissingCostData)
    ensures Get(body, "cost") == Num(0.0) && Get(body, "usage_quantity") == Num(1.0) ==> ValidateCostData(body) == Next
  {
  }
}
