# API Cost Guardian — a verified model of the backend's bookkeeping

API Cost Guardian records what a company spends on AI provider APIs, project by project. It keeps
budgets per service, raises alerts, summarises and forecasts costs, proxies provider calls while
metering their tokens, and synthesises usage data. This project models, in Dafny, the rules the
backend applies around its database:

- the four Mongoose schemas (Budget, Alert, CostData, Project) with their enums, bounds and
  defaults (`Models`);
- the request guards: budget validation and duplicate prevention, cost-record validation and
  project-access resolution (`BudgetMiddleware`, `CostDataMiddleware`, `ProjectMiddleware`);
- the controllers over an in-memory store (`Store.Db`, a class with one sequence per collection):
  budgets, alerts, cost records, projects, the provider proxy, the sync generator and the
  prediction (`BudgetController`, `AlertController`, `CostDataController`, `ProjectController`,
  `ProxyController`, `SyncController`, `PredictionController`);
- the frontend's route guard (`RouteGuard`).

Shared pieces:

- `Js` holds the parts of JavaScript the rules depend on: truthiness, `trim`, number conversion.
- `Query` holds `find`/`findOne`/`sort`/`limit`.
- `Usage` holds the `$match`/`$group` pipelines as functions over record sequences.
- `Numbers` holds `toFixed(2)` rounding and number printing.
- `Wrappers` holds `Option` and `Result`; `Http` holds middleware verdicts and replies.

Modelling conventions:

- Money is `real` and instants are `int` milliseconds. Days are UTC day numbers, 86 400 000 ms
  long.
- ObjectIds are natural numbers. Text that is not an id fails the cast the way Mongoose's
  `CastError` does, which makes the handler answer 500.
- A JSON body is a map from key to `Js.Value`. A missing key reads as `Undefined`.
- A forbidden JavaScript result (`NaN`, `Infinity`, serialised as `null`) is `None`.
- The clock, `monthStart`, the random draws of the sync generator and the provider's answer are
  parameters. A state-changing handler is a method on `Store.Db`; a read-only one is a function.

Where the code and its documentation disagree, the model follows the code:

- `predictCosts` in `costDataController.js` always reports the trend "decreasing", because it
  compares a value with itself.
- `getServiceUsage` sorts on `created_at`, which cost records lack, so records come back in
  storage order.
- The alert fields `threshold` and `current_value` are not in the Alert schema and are not
  stored.

## Model

| member | source | states |
|---|---|---|
| Models.CastNumber | Backend/src/models/Budget.js:19-23 | a number stays; `null`, `undefined` and `""` leave the path unset; other text goes through `Number()`, so decimal and exponent literals cast to their value and anything else fails with a cast error |
| Models.ParseId | Backend/src/middleware/projectMiddleware.js:14-17 | an id is only ever read from non-empty text; anything else fails the ObjectId cast |
| Models.RequiredTrimmed | Backend/src/models/CostData.js:14-18 | a required trimmed string: success iff the trimmed text is non-empty, the result is the trimmed text |
| Models.OptionalTrimmed | Backend/src/models/CostData.js:39-46 | an optional trimmed string: absent stays absent, text is stored trimmed |
| Models.RequiredNonNegative | Backend/src/models/CostData.js:19-28 | a required number with `min: 0`: absent, `null` and `""` fail; a number or numeric text succeeds iff its value is ≥ 0, and that value is stored |
| Models.DecimalTextCasts | Backend/src/models/CostData.js:19-28 | `"12.5"` casts to 12.5 and is stored; `"-0.5"` fails the `min: 0` validator |
| Models.ParsePeriod | Backend/src/models/Budget.js:24-28 | accepted iff one of daily, weekly, monthly, and the name round-trips |
| Models.BudgetPeriodPath | Backend/src/models/Budget.js:24-28 | `budget_period` defaults to monthly and accepts exactly the three enum names |
| Models.AlertThresholdPath | Backend/src/models/Budget.js:29-34 | `alert_threshold` defaults to 80 when absent; `null` and `""` store no threshold, since `min`/`max` accept null; otherwise a number is accepted iff it lies in [1, 100] |
| Models.NewBudget | Backend/src/models/Budget.js:3-48 | a saved budget is valid, active, stamped now, with the given ids, the trimmed name and the supplied or default period and threshold; a missing amount fails |
| Models.ParseAlertType | Backend/src/models/Alert.js:19-23 | accepted iff one of the three alert types |
| Models.NewAlert | Backend/src/models/Alert.js:3-40 | a saved alert is valid, active, unresolved, stamped now; an unknown type fails; required fields present means success |
| Models.NewCostRecord | Backend/src/models/CostData.js:3-47 | a saved record is valid (cost and usage ≥ 0, trimmed names), dated `date` or now, without resource id; a missing project, cost or usage fails |
| Models.ParseProjectStatus | Backend/src/models/Project.js:18-22 | accepted iff active or archived |
| Models.NewProject | Backend/src/models/Project.js:3-27 | a saved project is valid, active, stamped now, with the trimmed name; a non-blank name and a text or absent description always save |
| Js.FalsyValues | Backend/src/middleware/budgetMiddleware.js:9 | the falsy values are exactly `undefined`, `null`, `false`, `0` and `""` |
| Js.Trim | Backend/src/models/Project.js:4-8 | the result has no surrounding white space (ECMAScript's WhiteSpace and LineTerminator characters) and is unchanged on trimmed input |
| Js.TrimIdempotent | Backend/src/models/Project.js:4-8 | trimming twice equals trimming once |
| Js.ToNumber | Backend/src/middleware/budgetMiddleware.js:16 | numbers convert to themselves and `undefined` to NaN; text goes through `Number()`: blank text is 0, a signed decimal literal is its value, anything else NaN |
| Js.UnsignedDecimal | Backend/src/middleware/budgetMiddleware.js:16 | an unsigned decimal literal (digits, optional fraction, optional exponent) reads as a non-negative value |
| Js.ParseDecimal | Backend/src/middleware/budgetMiddleware.js:16 | a leading `-` negates and a leading `+` keeps the unsigned literal's value; text starting with a digit is read unsigned |
| Js.IntegerTextIsDecimal | Backend/src/middleware/budgetMiddleware.js:16 | every signed integer literal reads as the same integer |
| Js.FractionExample | Backend/src/models/Budget.js:19-23 | `"12.5"` reads as 12.5 |
| Js.NegativeFractionExample | Backend/src/middleware/budgetMiddleware.js:16 | `"-0.5"` reads as -0.5 |
| Js.ExponentExample | Backend/src/models/Budget.js:19-23 | `"1e3"` reads as 1000 |
| Js.DecimalTextNumbers | Backend/src/middleware/budgetMiddleware.js:16 | the comparisons convert `"-0.5"` to -0.5 and `"12.5"` to 12.5 |
| Numbers.Round2 | Backend/src/controllers/budgetController.js:77 | the result is a whole number of hundredths within half a hundredth of x |
| Numbers.Utilization | Backend/src/controllers/budgetController.js:69-77 | defined iff the amount is non-zero; within half a hundredth of cost / amount × 100; non-negative for a non-negative cost |
| Numbers.NatText | Backend/src/controllers/alertController.js:164 | the printed form is a non-empty digit string without leading zeros |
| Numbers.Fixed2Text | Backend/src/controllers/alertController.js:164 | `toFixed(2)` text: at least four characters, a dot before the last two digits; it reads back as the number rounded to hundredths (Fixed2TextValue) |
| Numbers.Fixed2TextValue | Backend/src/controllers/alertController.js:164 | `x.toFixed(2)` reads back as x rounded to the nearest hundredth, a tie rounding up |
| Numbers.HundredthsText | Backend/src/controllers/alertController.js:164 | the whole part, a point and two digits of c hundredths read back as c / 100 |
| Numbers.NumberText | Backend/src/controllers/alertController.js:164 | `String(x)` for x ≥ 0: never empty, starting with a digit; it reads back as x (see NumberTextRoundTrip) |
| Numbers.Places | Backend/src/controllers/alertController.js:164 | the fewest fraction digits that make the number whole: that many do, no fewer do |
| Numbers.WholeNumberText | Backend/src/controllers/alertController.js:164 | a whole number prints as its digits alone, without a fraction |
| Numbers.NumberTextRoundTrip | Backend/src/controllers/alertController.js:164 | reading the printed form back gives the number, for every x ≥ 0 needing fewer than 20 fraction digits |
| Numbers.NatTextRoundTrip | Backend/src/controllers/alertController.js:164 | reading back the printed digits of a number gives the number |
| BudgetMiddleware.ValidateBudgetData | Backend/src/middleware/budgetMiddleware.js:5-36 | POST: "missing" iff one of the three fields is falsy, next iff all present and the amount > 0; PUT: empty body rejected, next iff amount > 0 and threshold in [0, 100] where supplied; other methods pass |
| BudgetMiddleware.ZeroAmountIsMissing | Backend/src/middleware/budgetMiddleware.js:9-14 | a POST amount of 0 gets the missing-field error |
| BudgetMiddleware.NegativeAmountRejected | Backend/src/middleware/budgetMiddleware.js:16-18 | a present negative POST amount gets "must be greater than 0" |
| BudgetMiddleware.NegativeDecimalTextRejected | Backend/src/middleware/budgetMiddleware.js:16-28 | an amount sent as the text `"-0.5"` compares as a number and is refused as not greater than 0, on POST and on PUT |
| BudgetMiddleware.ThresholdBoundsPass | Backend/src/middleware/budgetMiddleware.js:30-32 | PUT thresholds 0 and 100 pass |
| BudgetMiddleware.FindActiveBudget | Backend/src/middleware/budgetMiddleware.js:44-49 | finds an active budget of the company, project and trimmed service iff one exists |
| BudgetMiddleware.CheckDuplicateBudget | Backend/src/middleware/budgetMiddleware.js:38-60 | rejects 400 iff an active budget of that service exists; a non-text service name fails the query with 500 |
| BudgetMiddleware.InactiveBudgetsDoNotBlock | Backend/src/middleware/budgetMiddleware.js:44-55 | with only inactive budgets of the service the check passes |
| CostDataMiddleware.ValidateCostData | Backend/src/middleware/costDataMiddleware.js:4-19 | "missing" iff a name, usage, unit or region is falsy or cost is undefined; next iff present and neither cost nor usage is negative |
| CostDataMiddleware.NegativeDecimalCostRejected | Backend/src/middleware/costDataMiddleware.js:14-16 | a cost sent as the text `"-0.5"` is refused as negative |
| CostDataMiddleware.ZeroUsageMissingZeroCostAccepted | Backend/src/middleware/costDataMiddleware.js:7 | usage 0 reads as missing, cost 0 is accepted |
| ProjectMiddleware.ProjectIdOf | Backend/src/middleware/projectMiddleware.js:8 | a non-empty header wins over the route parameter; an empty id counts as none |
| ProjectMiddleware.FindOwnedProject | Backend/src/middleware/projectMiddleware.js:14-17 | finds a project with that id and company iff one exists |
| ProjectMiddleware.ResolveProjectAccess | Backend/src/middleware/projectMiddleware.js:5-29 | 400 iff no id; success only with a project of the caller's company whose id was given; 404 when none is owned; 500 for an id that does not cast |
| ProjectMiddleware.ForeignProjectNotFound | Backend/src/middleware/projectMiddleware.js:14-21 | a project of another company answers 404, by header or by parameter |
| ProjectMiddleware.ValidateProjectAccess | Backend/src/middleware/projectMiddleware.js:23-24 | on success `req.project` is the resolved project, otherwise it stays unset |
| BudgetController.ThresholdOrDefault | Backend/src/controllers/budgetController.js:19 | a falsy threshold becomes 80, a truthy one stays |
| BudgetController.CreatedBudget | Backend/src/controllers/budgetController.js:13-22 | the saved budget is valid and active with the caller's ids; a falsy threshold gives 80 |
| BudgetController.ZeroThresholdBecomesDefault | Backend/src/controllers/budgetController.js:19 | a threshold of 0 saves with 80 instead of failing `min: 1` |
| BudgetController.CreateBudget | Backend/src/controllers/budgetController.js:7-28 | appends exactly the created budget and answers 201, or stores nothing and answers 500 |
| BudgetController.CreateAfterCheckKeepsActiveBudgetsUnique | Backend/src/middleware/budgetMiddleware.js:38-55 | after the duplicate check passes, the new budget keeps at most one active budget per company, project and service |
| BudgetController.PostBudget | Backend/src/routes/budgetRoutes.js:14-18 | validate, duplicate check, create: a rejection stores nothing, and the store keeps one active budget per service |
| BudgetController.MonthUsage | Backend/src/controllers/budgetController.js:69-77 | zero totals when the service has no record; utilisation defined iff the amount is non-zero and within rounding of cost / amount × 100 |
| BudgetController.GetBudgetByService | Backend/src/controllers/budgetController.js:30-84 | 404 iff no active budget of the trimmed service; otherwise that budget with its month usage |
| BudgetController.CastBudgetUpdate | Backend/src/controllers/budgetController.js:92-104 | only the supplied amount and threshold are set, after the schema's `min`/`max` validators; a `null` or `""` threshold is stored as no threshold; the update fails iff a supplied value fails its cast or validator |
| BudgetController.NullThresholdIsStored | Backend/src/controllers/budgetController.js:92-110 | a PUT with a `null` threshold passes the guard, casts, and stores no threshold |
| BudgetController.ZeroThresholdPassesGuardFailsUpdate | Backend/src/middleware/budgetMiddleware.js:30 | a PUT threshold of 0 passes the guard but fails the update validators |
| BudgetController.ApplyBudgetUpdate | Backend/src/controllers/budgetController.js:92-104 | only amount, threshold and `updated_at` change; service, period, status, company and project stay |
| BudgetController.UpdateKeepsBudgetsSound | Backend/src/controllers/budgetController.js:97-104 | a validated update keeps the budget valid and active budgets unique per service |
| BudgetController.FindOwnedBudget | Backend/src/controllers/budgetController.js:97-101 | the first budget with that id and company, if any |
| BudgetController.UpdateBudget | Backend/src/controllers/budgetController.js:86-115 | 404 with nothing changed for a budget the company does not own; otherwise replaces just that budget |
| BudgetController.DeactivateIn | Backend/src/controllers/budgetController.js:122-136 | None iff the company owns no such budget; otherwise only that budget changes, to inactive at now |
| BudgetController.DeactivateIdempotent | Backend/src/controllers/budgetController.js:122-138 | deactivating again succeeds and leaves every status as the first call did |
| BudgetController.DeactivateKeepsBudgetsSound | Backend/src/controllers/budgetController.js:122-132 | deactivation keeps active budgets unique per service |
| BudgetController.DeactivateBudget | Backend/src/controllers/budgetController.js:117-143 | the store changes as `DeactivateIn` says, or not at all with 404/500 |
| BudgetController.ProjectBudgets | Backend/src/controllers/budgetController.js:150-153 | exactly the budgets of the company and project, any status, each as often as stored, in storage order |
| BudgetController.NewestFirst | Backend/src/controllers/budgetController.js:153 | a permutation sorted by creation date, newest first |
| BudgetController.GetProjectBudgets | Backend/src/controllers/budgetController.js:145-196 | the entries' budgets are a permutation of the project's budgets, one entry each; newest first; each with its service's month usage or zeros |
| BudgetController.JoinedUsage | Backend/src/controllers/budgetController.js:176-189 | entry i is budget i of the sorted list with that service's month usage |
| AlertController.ActiveAlertsOf | Backend/src/controllers/alertController.js:14-18 | exactly the active alerts of the company and project, each as often as stored, in storage order |
| AlertController.GetActiveAlerts | Backend/src/controllers/alertController.js:9-25 | those alerts, as a permutation, newest first |
| AlertController.ValidateAlertRequest | Backend/src/controllers/alertController.js:34-55 | missing fields, then threshold a positive number, then the type enum, each 400 |
| AlertController.ZeroThresholdNotPositive | Backend/src/controllers/alertController.js:34-46 | threshold 0 passes the presence check and fails the positivity check |
| AlertController.CreateAlert | Backend/src/controllers/alertController.js:27-81 | a rejected request stores nothing; an accepted one is stored active, unresolved |
| AlertController.FindOwnedAlert | Backend/src/controllers/alertController.js:88-89 | finds an alert with that id and company iff one exists |
| AlertController.ResolveAlert | Backend/src/controllers/alertController.js:83-106 | only an alert of the caller's company becomes resolved at now; otherwise 404 and no change |
| AlertController.ActiveBudgets | Backend/src/controllers/alertController.js:114-118 | exactly the active budgets of the company and project, each as often as stored, in storage order |
| AlertController.FindBlockingAlert | Backend/src/controllers/alertController.js:149-155 | found iff an active budget_threshold alert of that service exists |
| AlertController.ThresholdMessage | Backend/src/controllers/alertController.js:164 | the message starts with the service name |
| AlertController.PercentTextValue | Backend/src/controllers/alertController.js:164 | against a positive amount, the printed percentage reads back as the utilisation rounded to hundredths |
| AlertController.NullThresholdAlwaysReached | Backend/src/controllers/alertController.js:158 | a `null` threshold compares as 0, so any spending against a positive amount reaches it |
| AlertController.ThresholdAlert | Backend/src/controllers/alertController.js:159-169 | an active, unresolved budget_threshold alert of that service, stamped now, valid for a valid budget |
| AlertController.GenerateAlerts | Backend/src/controllers/alertController.js:126-186 | the alerts of one run, at most one per active budget |
| AlertController.GeneratedShape | Backend/src/controllers/alertController.js:159-172 | the saved alerts are fresh threshold alerts with consecutive ids |
| AlertController.GeneratedIff | Backend/src/controllers/alertController.js:158 | a run raises an alert for a service iff some budget of it has reached its threshold and no blocking alert exists |
| AlertController.OnePerService | Backend/src/controllers/alertController.js:149-158 | no two alerts of one run share a service |
| AlertController.RunCoversReached | Backend/src/controllers/alertController.js:149-172 | after a run every budget that reached its threshold is blocked by an active alert |
| AlertController.NothingRaisedWhenCovered | Backend/src/controllers/alertController.js:158 | when no budget can raise, a run raises nothing |
| AlertController.RerunRaisesNothing | Backend/src/controllers/alertController.js:149-158 | a second run with the same budgets and costs raises no alert |
| AlertController.GenerateStep | Backend/src/controllers/alertController.js:145-172 | one loop turn raises the budget's alert exactly when it is due |
| AlertController.CheckOneBudget | Backend/src/controllers/alertController.js:128-185 | the loop body appends the alert due for this budget, if any |
| AlertController.SaveDueAlerts | Backend/src/controllers/alertController.js:124-186 | the loop saves exactly `GenerateAlerts` of the stored alerts, with consecutive ids |
| AlertController.CheckBudgetAlerts | Backend/src/controllers/alertController.js:108-205 | `alerts_generated` is the number of new alerts, `new_alerts` those alerts, and `all_active_alerts` the active alerts after the run; every due alert is saved (the code as written stops at the first, see Findings) |
| AlertController.CheckBudgetAlertsAsWritten | Backend/src/controllers/alertController.js:108-205 | as written: the month totals are read through the uncast header, so all are 0; with due alerts and a company e-mail only the first due alert is saved and the answer is 500 "Failed to check budget alerts"; otherwise 200 with every due alert saved |
| AlertController.SaveUntilThrow | Backend/src/controllers/alertController.js:125-185 | the loop as written saves the first due alert alone when the e-mail call throws, every due alert otherwise |
| AlertController.SaveFirstDue | Backend/src/controllers/alertController.js:125-185 | the loop up to the throwing e-mail call saves exactly the first alert of the full run, or nothing when none is due |
| AlertController.TwoDueBudgetsRaiseTwo | Backend/src/controllers/alertController.js:125-173 | two budgets of different services that are both due raise two alerts in the intended run |
| AlertController.NullThresholdsRaiseTwoAsWritten | Backend/src/controllers/alertController.js:128-158 | as written, two budgets of different services without a threshold and with positive amounts are both due: 0% reaches a null threshold |
| AlertController.NothingReachedAtZero | Backend/src/controllers/alertController.js:145-158 | a month total of 0 reaches no threshold of at least 1 |
| AlertController.NoThresholdAlertAsWritten | Backend/src/controllers/alertController.js:128-158 | as written, the uncast header matches no record, so no budget that carries a threshold raises an alert |
| CostDataController.RecordUsage | Backend/src/controllers/costDataController.js:6-71 | a record is saved iff the answer is not 500; the saved record is the body's, dated now, and a valid cost record |
| CostDataController.BudgetDecision | Backend/src/controllers/costDataController.js:13-66 | 400 iff an active budget of the service exists whose amount the month-to-date total, new record included, reaches |
| CostDataController.UniqueActiveBudget | Backend/src/controllers/costDataController.js:13-18 | with one active budget per service, the one found is the only one |
| CostDataController.NewRecordCounts | Backend/src/controllers/costDataController.js:31-56 | the checked total includes the record just saved |
| CostDataController.RecordApiUsage | Backend/src/controllers/costDataController.js:20-31 | the record is appended before the check and stays when the answer is 400 |
| CostDataController.LimitNeverReachedAsWritten | Backend/src/controllers/costDataController.js:39-63 | as written, a positive budget is never reported exceeded; by id, one record costing the amount reaches it |
| CostDataController.PostUsage | Backend/src/routes/costDataRoutes.js:11 | a rejected body stores nothing; an accepted one runs `recordApiUsage` |
| CostDataController.PredictCosts | Backend/src/controllers/costDataController.js:73-114 | 30 × the mean daily cost over the last 30 days, undefined iff no record; trend always "decreasing", confidence 0.8 |
| CostDataController.ByTotalCost | Backend/src/controllers/costDataController.js:142 | a permutation of the groups by total, largest first |
| CostDataController.TopRanked | Backend/src/controllers/costDataController.js:142-146 | any prefix of the sorted groups costs at least as much as every group left out |
| CostDataController.TopThree | Backend/src/controllers/costDataController.js:141-149 | at most three groups, each kept no more often than it occurs; largest first; every dropped group costs no more than every kept one; the total sums the kept ones |
| CostDataController.GetCostSummary | Backend/src/controllers/costDataController.js:116-160 | the month's per-service groups ranked by total: at most three, no group repeated, largest first, none left out that is larger than a kept one; `totalCost` is their sum |
| CostDataController.SumTotalsPermutation | Backend/src/controllers/costDataController.js:149 | the summed total does not depend on the order of the groups |
| CostDataController.SummaryTotalIsMonthTotal | Backend/src/controllers/costDataController.js:125-149 | with at most three services the total is the month's whole cost |
| CostDataController.AverageServiceCost | Backend/src/controllers/costDataController.js:188-208 | the mean record cost of the service, 0 when it has none |
| CostDataController.DetectSpikes | Backend/src/controllers/costDataController.js:162-223 | alert iff the day's total exceeds twice the eight-day average; threshold twice the average; a message iff alert |
| CostDataController.SpikeNeedsThreeRecords | Backend/src/controllers/costDataController.js:210 | with non-negative costs a spike needs at least three records in the window |
| ProjectController.CreateProject | Backend/src/controllers/projectController.js:7-24 | appends exactly the new project and answers 201, or stores nothing and answers 500 |
| ProjectController.CompanyProjects | Backend/src/controllers/projectController.js:26-35 | exactly the projects of the company, archived ones included, each as often as stored, in storage order |
| ProjectController.ActiveProjectBudgets | Backend/src/controllers/projectController.js:56 | exactly the active budgets of the project, each as often as stored, in storage order |
| ProjectController.Percentage | Backend/src/controllers/projectController.js:100-102 | defined iff the amount is non-zero, and then value × amount = cost × 100 |
| ProjectController.UtilizationOf | Backend/src/controllers/projectController.js:94-104 | the service and its total; utilisation of the first budget named after it, or amount 0 and utilisation 0 |
| ProjectController.Details | Backend/src/controllers/projectController.js:94-116 | the breakdown is the month's per-service groups; one utilisation entry per group; the counts of budgets and services |
| ProjectController.DetailsTotalIsMonthCost | Backend/src/controllers/projectController.js:109 | `total_cost` equals the month's whole cost of the project |
| ProjectController.DetailsOneEntryPerService | Backend/src/controllers/projectController.js:94-104 | exactly one utilisation entry per service with a record this month |
| ProjectController.UtilizationFollowsNames | Backend/src/controllers/projectController.js:94-98 | entry k is about the k-th distinct service of the month's records, with that service's month total |
| ProjectController.GetProjectDetails | Backend/src/controllers/projectController.js:37-121 | 404 unless the company owns the project; 500 for an id that does not cast |
| ProjectController.LastWriteWins | Backend/src/controllers/projectController.js:179-182 | the last item of a service and day decides that day's point |
| ProjectController.SummarizeStep | Backend/src/controllers/projectController.js:165-183 | folding one item updates exactly its service's entry and adds its day |
| ProjectController.AbsentService | Backend/src/controllers/projectController.js:169-175 | a service without items has zero sums and no days |
| ProjectController.AscendingDays | Backend/src/controllers/projectController.js:187 | the timeline is strictly ascending and holds exactly the given days |
| ProjectController.ProcessAnalyticsData | Backend/src/controllers/projectController.js:161-189 | the loop builds exactly `Summarize` of the items, and the timeline is their distinct days ascending |
| ProjectController.EmptyAnalytics | Backend/src/controllers/projectController.js:162-163 | no items give no services and no days |
| ProjectController.LastPoint | Backend/src/controllers/projectController.js:179-182 | a `daily_data` point exists for a day iff some item of the service has that day |
| ProjectController.LastPointOf | Backend/src/controllers/projectController.js:179-182 | the point of a day is the cost and usage of the last item with that service and day |
| ProjectController.CastProjectUpdate | Backend/src/controllers/projectController.js:195-200 | only supplied schema paths are set; a blank name, a null name or company, or an unknown status fails |
| ProjectController.ApplyProjectUpdate | Backend/src/controllers/projectController.js:197-201 | only the supplied paths change; id and creation date stay |
| ProjectController.UpdateKeepsProjectValid | Backend/src/controllers/projectController.js:200 | a validated update keeps the project valid |
| ProjectController.UpdateProject | Backend/src/controllers/projectController.js:191-212 | 404 with nothing changed for a project the company does not own; otherwise replaces just that project |
| ProjectController.ArchiveIn | Backend/src/controllers/projectController.js:219-227 | None iff the company owns no such project; otherwise it is archived |
| ProjectController.ArchiveIdempotent | Backend/src/controllers/projectController.js:219-229 | archiving again succeeds and changes nothing |
| ProjectController.ArchiveProject | Backend/src/controllers/projectController.js:214-234 | the store changes as `ArchiveIn` says, or not at all with 404/500 |
| ProxyController.ModelRates | Backend/src/controllers/proxyController.js:312-347 | a listed model's rates, otherwise the default model's; rates are positive |
| ProxyController.Cost | Backend/src/controllers/proxyController.js:98-112 | non-negative, and zero iff both counts are zero |
| ProxyController.CostMonotone | Backend/src/controllers/proxyController.js:318 | more tokens of either kind never cost less |
| ProxyController.CostSplits | Backend/src/controllers/proxyController.js:111 | the cost is the input part plus the output part |
| ProxyController.UnknownModelPricedAsDefault | Backend/src/controllers/proxyController.js:110 | an unlisted model costs what the default model costs |
| ProxyController.CountTokens | Backend/src/controllers/proxyController.js:115-120 | 0 without content, else the least n with 4n ≥ the JSON text's `.length` in UTF-16 code units |
| Js.Utf16Length | Backend/src/controllers/proxyController.js:119 | `.length` counts UTF-16 code units: between one and two per character |
| Js.BmpLength | Backend/src/controllers/proxyController.js:119 | text without characters beyond U+FFFF has one code unit per character |
| Js.Utf16LengthAppend | Backend/src/controllers/proxyController.js:119 | the code units of a concatenation add up |
| ProxyController.CountTokensMonotone | Backend/src/controllers/proxyController.js:119 | JSON text with more code units never estimates fewer tokens |
| ProxyController.AppendNeverFewerTokens | Backend/src/controllers/proxyController.js:119 | appending to the JSON text never estimates fewer tokens |
| ProxyController.AstralCountsTwice | Backend/src/controllers/proxyController.js:119 | a character beyond U+FFFF counts twice: three emoji estimate two tokens |
| ProxyController.Tokens | Backend/src/controllers/proxyController.js:45-46 | Gemini and Anthropic estimate from the contents; the others take the reported counts |
| ProxyController.SuccessRecord | Backend/src/controllers/proxyController.js:50-66 | saves iff there is a project: the service, cost, input + output tokens as usage, unit TOKENS |
| ProxyController.FailureRecord | Backend/src/controllers/proxyController.js:73-89 | saves iff there is a project: cost 0, usage 0, unit TOKENS |
| ProxyController.HandleProxyError | Backend/src/controllers/proxyController.js:389-413 | no user: 500 and nothing saved; user and project: one zero record and 500; a user without project makes the save reject unhandled, so the process exits (Backend/index.js:77-80) |
| ProxyController.ProxyOutcomeOf | Backend/src/controllers/proxyController.js:22-96 | every record a request leaves behind, success or failure, is a valid cost record (non-negative cost and usage, a trimmed non-empty service name) |
| ProxyController.MissingKeyRecordsNothing | Backend/src/controllers/proxyController.js:29-31 | a missing key answers 400 and records nothing |
| ProxyController.ForwardedRecordsUsage | Backend/src/controllers/proxyController.js:147-163 | a forwarded answer had a user, a key, a valid project and an answer, and is recorded exactly once, as the success record of its tokens at the model's price |
| ProxyController.AnsweredIsForwarded | Backend/src/controllers/proxyController.js:122-163 | with a user, a key, a valid project and an answer, the reply is forwarded |
| ProxyController.FailureRecordsZero | Backend/src/controllers/proxyController.js:164-165 | a failed call with a user and project leaves one zero record and 500 |
| ProxyController.ProxyOutcomeShape | Backend/src/controllers/proxyController.js:22-96 | at most one record per request; a record is saved iff user, key and a valid project id are present; the process exits iff user and key are present without a valid project id |
| ProxyController.ProxyRequest | Backend/src/controllers/proxyController.js:122-167 | appends exactly the outcome's records to the store |
| ProxyController.GetServiceUsage | Backend/src/controllers/proxyController.js:371-387 | the first min(n, 100) of the n matching records of the service, company and project, in storage order; 500 for a header that is not an id |
| SyncController.CalculateCost | Backend/src/controllers/syncController.js:103-112 | non-negative, positive for a positive quantity, and quantity × 0.01 for an unlisted service |
| SyncController.CalculateCostBounds | Backend/src/controllers/syncController.js:104-111 | monotone in the quantity and at most 0.03 per call |
| SyncController.Weekday | Backend/src/controllers/syncController.js:74 | a weekday number in 0..6 |
| SyncController.DayCountOf | Backend/src/controllers/syncController.js:71 | the number of loop days is the day count |
| SyncController.SimulatedCount | Backend/src/controllers/syncController.js:71-98 | four records for every day from the start through now |
| SyncController.SimulatedValid | Backend/src/controllers/syncController.js:83-94 | every generated record passes the schema |
| SyncController.SimulateUsage | Backend/src/controllers/syncController.js:62-101 | records in service order per day, with usage within the weekend/weekday bounds, priced by `calculateCost`, in a listed region, dated the loop day, until after now |
| SyncController.StartDate | Backend/src/controllers/syncController.js:32-37 | the latest record's date, else thirty days before now |
| SyncController.FindActiveProject | Backend/src/controllers/syncController.js:21-25 | finds an active project of the company iff one exists |
| SyncController.SyncData | Backend/src/controllers/syncController.js:15-60 | 404 iff no active owned project; otherwise appends one simulated batch and reports its size |
| SyncController.GetLastSyncStatus | Backend/src/controllers/syncController.js:114-132 | "success" with the latest date iff a record exists, else "never_synced" with null |
| SyncController.SyncStartsAtLastSync | Backend/src/controllers/syncController.js:32-37 | a sync starts at the last sync the status reports |
| PredictionController.SumXClosed | Backend/src/controllers/predictionController.js:86 | 2 × (0 + 1 + … + (n − 1)) = n(n − 1) |
| PredictionController.DenominatorPositive | Backend/src/controllers/predictionController.js:90 | the denominator is zero iff n ≤ 1, and never negative |
| PredictionController.CalculateSlope | Backend/src/controllers/predictionController.js:84-91 | defined iff there are at least two days |
| PredictionController.LineSums | Backend/src/controllers/predictionController.js:86-89 | the sums of points on a line satisfy the normal equations |
| PredictionController.SlopeOfLine | Backend/src/controllers/predictionController.js:84-91 | costs on a line a + b·x have slope b |
| PredictionController.TrendOf | Backend/src/controllers/predictionController.js:70 | increasing iff slope > 0, decreasing iff < 0, stable otherwise (also for NaN) |
| PredictionController.PredictedCost | Backend/src/controllers/predictionController.js:65 | `max(0, mean + slope × k)`: never negative, never below the line, equal to it when it is non-negative |
| PredictionController.SumPredictions | Backend/src/controllers/predictionController.js:69 | defined iff every prediction is |
| PredictionController.SumPredictionsNonNegative | Backend/src/controllers/predictionController.js:69 | a total of non-negative predictions is non-negative |
| PredictionController.RSquared | Backend/src/controllers/predictionController.js:93-98 | at most 1; defined iff there is a slope and the costs vary |
| PredictionController.SquaredResidualsNonNegative | Backend/src/controllers/predictionController.js:94-96 | the residual sum of squares is never negative |
| PredictionController.DailyPredictions | Backend/src/controllers/predictionController.js:59-67 | thirty predictions on the thirty days after the last one |
| PredictionController.CalculatePrediction | Backend/src/controllers/predictionController.js:41-82 | no data iff the history is empty; otherwise the predictions, their sum, the trend and R² |
| PredictionController.ForecastShape | Backend/src/controllers/predictionController.js:59-69 | thirty non-negative predictions on consecutive days; defined iff two or more days; the monthly sum non-negative |
| PredictionController.ForecastFollowsTrend | Backend/src/controllers/predictionController.js:65-70 | with a rising trend predictions never fall, with a falling one never rise |
| PredictionController.LinearHistoryTrend | Backend/src/controllers/predictionController.js:56-70 | costs on a rising, falling or flat line give that trend |
| PredictionController.SingleDayIsStable | Backend/src/controllers/predictionController.js:70 | one day of history gives trend stable and an undefined monthly cost |
| PredictionController.MeanOffsetAsWritten | Backend/src/controllers/predictionController.js:65-94 | as written, daily costs 0 and 1 give a third-day prediction of 2.5 and a confidence of 0 |
| PredictionController.FittedCost | Backend/src/controllers/predictionController.js:65 | the prediction on the least-squares line through the mean point, never negative and never below that line |
| PredictionController.FittedRSquared | Backend/src/controllers/predictionController.js:93-98 | R² with residuals from that line: at most 1, defined iff there is a slope and the costs vary |
| PredictionController.InterceptOfLine | Backend/src/controllers/predictionController.js:51-55 | costs on a line a + b·x have intercept a |
| PredictionController.FittedLineExact | Backend/src/controllers/predictionController.js:56-72 | with the intercept, costs on a line are forecast on that line, and a line that is not flat has R² = 1 |
| PredictionController.PredictionsFollowSlope | Backend/src/controllers/predictionController.js:65 | one day later the prediction moves in the direction of the slope |
| PredictionController.HistoryEmptyIff | Backend/src/controllers/predictionController.js:42-49 | the per-day history is empty iff there is no matching record |
| PredictionController.PredictCosts | Backend/src/controllers/predictionController.js:6-39 | the forecast of the service's per-day totals since `days` ago; no data iff no record matches |
| RouteGuard.Middleware | Frontend/src/middleware.ts:5-19 | to sign-in iff no cookie on a dashboard path; to the dashboard iff a cookie on `/`; pass otherwise |
| RouteGuard.Guard | Frontend/src/middleware.ts:21-23 | unmatched paths pass, matched ones go through the middleware |
| RouteGuard.MatchedDashboardArea | Frontend/src/middleware.ts:22 | a `/dashboard…` path is matched iff it is `/dashboard` or continues with `/` |
| RouteGuard.SignedOutGuard | Frontend/src/middleware.ts:10-12 | without the cookie every matched path but `/` redirects to sign-in |
| RouteGuard.SignedInGuard | Frontend/src/middleware.ts:14-18 | with the cookie only `/` redirects, to the dashboard |
| RouteGuard.RedirectSettles | Frontend/src/middleware.ts:10-16 | a redirect lands on a matched page the guard passes: no loop |
| Query.FindFirst | Backend/src/middleware/budgetMiddleware.js:44-49 | the first matching position, None iff nothing matches |
| Query.Filter | Backend/src/controllers/budgetController.js:150-153 | exactly the matching documents, each as often as it occurs, in collection order (a subsequence) |
| Query.Take | Backend/src/controllers/proxyController.js:380 | `limit(n)`: the first n documents, or all of them when there are fewer; no document more often than in the collection |
| Query.SortDesc | Backend/src/controllers/costDataController.js:142 | a permutation sorted by the key, largest first |
| Usage.Scope | Backend/src/controllers/budgetController.js:159-166 | exactly the records of the project (and company) dated on or after `since`, each as often as stored, in storage order |
| Usage.ScopeAsWritten | Backend/src/controllers/alertController.js:128-137 | as written, `$match` on the header text selects no record, whatever is stored |
| Usage.ServiceCostSinceAsWritten | Backend/src/controllers/alertController.js:128-146 | as written, every month-to-date service total is 0 |
| Usage.HeaderMatchesNothing | Backend/src/controllers/alertController.js:128-137 | a record of the project in the month is matched by id, but not by the header text |
| Usage.GroupByService | Backend/src/controllers/budgetController.js:167-173 | one group per distinct service name of the records, each with that service's sums |
| Usage.ServiceNames | Backend/src/controllers/costDataController.js:133-140 | the group keys: distinct, each a record's service, and every record's service among them |
| Usage.ServiceRecords | Backend/src/controllers/alertController.js:128-143 | exactly the records of that service, each as often as it occurs, in order |
| Usage.ServiceRecordsSum | Backend/src/controllers/alertController.js:128-146 | matching on the service and summing gives the group's total and count |
| Usage.ServiceCostAbsent | Backend/src/controllers/budgetController.js:177-178 | a service without records has zero totals, as the fallbacks assume |
| Usage.AverageCost | Backend/src/controllers/costDataController.js:138 | `$avg` is undefined iff there are no records |
| Usage.GroupTotalsPartitionCost | Backend/src/controllers/projectController.js:109 | the group totals add up to the total of all records |
| Usage.LookupGroupedService | Backend/src/controllers/budgetController.js:177-178 | looking a service up finds its group, or nothing when it has no record |
| Usage.DailyCosts | Backend/src/controllers/predictionController.js:23-30 | one document per distinct day, ascending, with that day's sum |
| Usage.Days | Backend/src/controllers/costDataController.js:91-97 | the group keys by day: strictly ascending, exactly the days of the records |
| Usage.DailyCostsCoverRecords | Backend/src/controllers/costDataController.js:91-97 | every record's day has its document |
| Usage.DailyTotalsPartitionCost | Backend/src/controllers/costDataController.js:101 | the day totals add up to the total of all records |
| Usage.DailyCostsEmpty | Backend/src/controllers/costDataController.js:101 | no day documents iff no records |
| Usage.ServiceCostShrinks | Backend/src/controllers/costDataController.js:195 | a later window start never gives a larger total |
| Usage.LatestDate | Backend/src/controllers/syncController.js:32-35 | the latest date of the records, None iff there are none |
| Store.Db.InsertCosts | Backend/src/controllers/syncController.js:44-46 | appends the valid records, keeps the store valid |
| Store.Db.InsertBudget | Backend/src/controllers/budgetController.js:22 | appends exactly the budget under the next id and keeps the store valid |
| Store.Db.InsertAlert | Backend/src/controllers/alertController.js:68 | appends exactly the alert under the next id and keeps the store valid |
| Store.Db.InsertProject | Backend/src/controllers/projectController.js:18 | appends exactly the project under the next id and keeps the store valid |

## Left out

- `getProjectAnalytics` (the date-range query in front of `processAnalyticsData`) and the
  `usage_trends` list of `getProjectDetails`: the model takes the analytics documents as input.
- Days are day numbers, not `YYYY-MM-DD` text; `$dateToString` is taken in UTC.
- `getDay()` is taken in UTC, not in the server's local time zone.
- The month label of `getCostSummary` and the `date` texts of the predictions are not produced.
- The ISO text `sync_period.to` is represented by the same `now` as the loop bound. The separate
  clock reads of `syncData` are one instant.
- The `days` query of `predictCosts` in `predictionController.js` is taken as a number. As text,
  JavaScript would coerce it inside the date arithmetic.
- The `usage_count` sums of the prediction pipeline are not modelled: the forecast does not read
  them.
- Sending e-mail: the mail itself and the company lookup are not modelled. Whether the company has
  an e-mail address is a parameter of `AlertController.CheckBudgetAlertsAsWritten`.
- AlertController.CheckBudgetAlerts: continues past the call to the missing `sendAlertEmail`,
  where the code throws; the run as written is `CheckBudgetAlertsAsWritten` (see Findings).
- Js.ToNumber: hexadecimal, octal and binary literals (`"0x1A"`) and `"Infinity"` read as NaN,
  where JavaScript gives a number. Models.CastNumber, BudgetMiddleware.ValidateBudgetData and
  CostDataMiddleware.ValidateCostData inherit this.
- Numbers.NumberText: a value needing more than 20 fraction digits is rounded to 20. The
  exponent notation `String(x)` uses outside [1e-6, 1e21) is not produced.
- Usage.GroupByService: `$group` promises no order of its groups; the model fixes the order of
  first appearance, and no contract depends on it.
- The upstream HTTP calls of the proxy handlers: the provider's answer is a parameter. The
  `request_details` object is not a schema path and is not stored.
- Authentication (`authMiddleware`, Firebase, JWT): the company id is a parameter. A token without
  `company_id` is not modelled.
- Concurrency: every handler runs alone. The check-then-insert races of the duplicate-budget check
  and of the alert deduplication are not modelled.
- Floating point: money is exact `real` arithmetic. JavaScript's rounding of doubles, `NaN` and
  `Infinity` are not modelled; the forbidden cases are `None`.
- Mongoose casts of non-text values to String paths (numbers and booleans are refused here rather
  than stringified), and a `null` status in a project update.
- Updates of `_id` and `created_at` through `updateProject`: the model's cast ignores those keys.
- JavaScript prototype keys (`constructor`, `__proto__`) in the rate tables and in
  `serviceData`.
- The route wiring: `Backend/src/routes/index.js:9-13` mounts only the company, project,
  cost-data, budget and chat routers, so the alert, sync and proxy handlers are not reachable in
  the application as shipped; the model states each handler as its own router would run it.
  `predictionController` has no route of its own (the `/predict` route calls
  `costDataController`). The sync route runs after `validateProjectAccess`, so its header is
  present.
- ProjectController.UpdateProject: an update body is a flat object of `Js.Value` fields. Bodies
  holding nested objects, arrays or update operators (`$set`, `$unset`, `$inc`) that
  `findOneAndUpdate` would apply (`Backend/src/controllers/projectController.js:195-200`) are
  not modelled.
- ProxyController.HandleProxyError: the process exit ends every other request in flight as
  well; the model answers only `ProcessExits` for the request at hand.
- A missing `x-project-id` header in the proxy's usage listing makes the query match records
  without a project. Stored records always have one, so the model answers an empty list.
- ProxyController.GetServiceUsage: the `sort({ created_at: -1 })` has no effect, because cost
  records have no `created_at`; the result is in storage order, not newest first.

## Findings

| source | as written | input that shows it | evidently intended | confidence | as-written member | corrected member |
|---|---|---|---|---|---|---|
| Backend/src/controllers/alertController.js:128-137 | The month-to-date pipelines put the `x-project-id` header text into `$match` uncast. The stored `project` is an ObjectId, so nothing matches and every total is 0. The same holds in costDataController.js:39-54 and in the month pipelines of getBudgetByService, getProjectBudgets, predictCosts, getCostSummary and detectSpikes, which the model reads by id. | A budget of 10 with threshold 80, and a record of cost 20 this month: no alert is raised. A new record of cost 20 against that budget is not refused. | match the project by id | high; not executed | Usage.ScopeAsWritten, AlertController.NoThresholdAlertAsWritten, CostDataController.LimitNeverReachedAsWritten | Usage.Scope, Usage.HeaderMatchesNothing |
| Backend/src/controllers/alertController.js:175-185 | After the first saved alert, the handler calls `this.sendAlertEmail`, which does not exist, and the route passes the handler unbound. The call throws: the rest of the budgets are skipped and the answer is 500. | Two active budgets of different services with positive amounts and no threshold (`null`), for a company with an e-mail address. As written the month totals are 0, and 0% reaches a null threshold, so both are due: one alert is saved and the answer is 500. | save every due alert and answer 200 | high; not executed | AlertController.CheckBudgetAlertsAsWritten, AlertController.NullThresholdsRaiseTwoAsWritten | AlertController.CheckBudgetAlerts |
| Backend/src/controllers/predictionController.js:65-94 | The predictions and the R² residuals use `average + slope * x`. That is a line through (0, mean), not through the mean point; it leaves out the intercept correction `- slope * (n - 1) / 2`. | Daily costs 0 and 1: the third day is predicted at 2.5 and the confidence is 0. | predict on the least-squares line (2 for the third day) and score an exact fit 1 | medium; not executed | PredictionController.MeanOffsetAsWritten, PredictionController.CalculatePrediction | PredictionController.FittedCost, PredictionController.FittedRSquared, PredictionController.FittedLineExact |
