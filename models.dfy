/**
  The four Mongoose schemas (Budget, Alert, CostData, Project) as datatypes
  with a validity predicate each, and the document construction a `save()`
  performs: casting each path, applying `trim` and defaults, and running the
  `required`, `enum`, `min` and `max` validators. A failed save is a
  `SaveError`; paths the schema does not declare are dropped (strict mode),
  so the datatypes hold exactly the declared paths.
*/
module Models {
  import opened Wrappers
  import opened Js

  /** An ObjectId. */
  type Id = nat

  /** A `Date`, in milliseconds since the epoch. */
  type Time = int

  datatype SaveError = CastError(path: string) | ValidationError(path: string)

  /**
    Casting to Number: `null` and `undefined` stay empty and so does the
    empty text; other text goes through `Number(...)`, whose NaN is a cast error.
  */
  function CastNumber(v: Value, path: string): (r: Result<Option<real>, SaveError>)
    ensures v.Num? ==> r == Success(Some(v.x))
    ensures v in {Undefined, Null, Text("")} ==> r == Success(None)
    ensures v.Text? && v.s != [] ==> (r.Success? <==> TextToNumber(v.s).Some?)
    ensures v.Text? && v.s != [] && r.Success? ==> r.value == TextToNumber(v.s)
  {
    match v
    case Undefined => Success(None)
    case Null => Success(None)
    case Bool(b) => Success(Some(if b then 1.0 else 0.0))
    case Num(x) => Success(Some(x))
    case Text(s) =>
      if s == [] then Success(None)
      else match TextToNumber(s)
        case Some(x) => Success(Some(x))
        case None => Failure(CastError(path))
  }

  /** Casting to String; only text is accepted. */
  function CastString(v: Value, path: string): Result<Option<string>, SaveError> {
    match v
    case Undefined => Success(None)
    case Null => Success(None)
    case Text(s) => Success(Some(s))
    case _ => Failure(CastError(path))
  }

  /** An ObjectId given as text (its decimal digits). */
  function ParseId(v: Value): (r: Option<Id>)
    ensures r.Some? ==> v.Text? && v.s != []
  {
    if v.Text? && v.s != [] && AllDigits(v.s) then Some(DigitsValue(v.s)) else None
  }

  /** A path declared `{ type: String, required: true, trim: true }`. */
  function RequiredTrimmed(v: Value, path: string): (r: Result<string, SaveError>)
    ensures r.Success? ==> r.value != [] && Trimmed(r.value)
    ensures r.Success? ==> v.Text? && r.value == Trim(v.s)
    ensures v.Text? && Trim(v.s) != [] ==> r == Success(Trim(v.s))
  {
    var s :- CastString(v, path);
    if s.None? || Trim(s.value) == [] then Failure(ValidationError(path)) else Success(Trim(s.value))
  }

  /** A path declared `{ type: String, trim: true }`. */
  function OptionalTrimmed(v: Value, path: string): (r: Result<Option<string>, SaveError>)
    ensures r.Success? && r.value.Some? ==> Trimmed(r.value.value)
    ensures v.Text? ==> r == Success(Some(Trim(v.s)))
    ensures v in {Undefined, Null} ==> r == Success(None)
  {
    var s :- CastString(v, path);
    if s.None? then Success(None) else Success(Some(Trim(s.value)))
  }

  /** A path declared `{ type: Number, required: true, min: 0 }`. */
  function RequiredNonNegative(v: Value, path: string): (r: Result<real, SaveError>)
    ensures r.Success? ==> r.value >= 0.0
    ensures v.Num? ==> (r.Success? <==> v.x >= 0.0)
    ensures v.Num? && r.Success? ==> r.value == v.x
    ensures v in {Undefined, Null, Text("")} ==> r.Failure?
    ensures v.Text? && v.s != [] && TextToNumber(v.s).Some? ==>
              (r.Success? <==> TextToNumber(v.s).value >= 0.0)
  {
    var n :- CastNumber(v, path);
    if n.None? || n.value < 0.0 then Failure(ValidationError(path)) else Success(n.value)
  }

  /** Decimal text casts to its value: `"12.5"` is saved as 12.5, `"-0.5"` fails the min(0) validator. */
  lemma DecimalTextCasts(path: string)
    ensures CastNumber(Text("12.5"), path) == Success(Some(12.5))
    ensures RequiredNonNegative(Text("12.5"), path) == Success(12.5)
    ensures RequiredNonNegative(Text("-0.5"), path).Failure?
  {
    DecimalTextNumbers();
  }

  // ----- Budget -----------------------------------------------------------

  datatype BudgetPeriod = Daily | Weekly | Monthly

  function PeriodName(p: BudgetPeriod): string {
    match p
    case Daily => "daily"
    case Weekly => "weekly"
    case Monthly => "monthly"
  }

  function ParsePeriod(s: string): (r: Option<BudgetPeriod>)
    ensures r.Some? <==> s in {"daily", "weekly", "monthly"}
    ensures r.Some? ==> PeriodName(r.value) == s
  {
    if s == "daily" then Some(Daily)
    else if s == "weekly" then Some(Weekly)
    else if s == "monthly" then Some(Monthly)
    else None
  }

  datatype BudgetStatus = Active | Inactive

  datatype Budget = Budget(
    id: Id,
    company: Id,
    project: Id,
    serviceName: string,
    amount: real,
    period: BudgetPeriod,
    threshold: Option<real>,
    status: BudgetStatus,
    createdAt: Time,
    updatedAt: Time)

  /** `alert_threshold`'s default, a percentage. */
  const DefaultAlertThreshold: real := 80.0

  /** What the schema guarantees of every stored budget. */
  predicate ValidBudget(b: Budget) {
    && b.serviceName != []
    && Trimmed(b.serviceName)
    && b.amount >= 0.0
    && (b.threshold.Some? ==> 1.0 <= b.threshold.value <= 100.0)
  }

  /** `budget_period`: an enum with default `monthly`. */
  function BudgetPeriodPath(v: Value): (r: Result<BudgetPeriod, SaveError>)
    ensures v == Undefined ==> r == Success(Monthly)
    ensures v.Text? ==> (r.Success? <==> v.s in {"daily", "weekly", "monthly"})
    ensures v.Text? && r.Success? ==> PeriodName(r.value) == v.s
  {
    match v
    case Undefined => Success(Monthly)
    case Text(s) =>
      var p := ParsePeriod(s);
      if p.Some? then Success(p.value) else Failure(ValidationError("budget_period"))
    case _ => Failure(ValidationError("budget_period"))
  }

  /**
    `alert_threshold`: a number in [1, 100] with default 80. An explicit
    `null` or empty text casts to null, which `min` and `max` accept: None.
  */
  function AlertThresholdPath(v: Value): (r: Result<Option<real>, SaveError>)
    ensures r.Success? && r.value.Some? ==> 1.0 <= r.value.value <= 100.0
    ensures v == Undefined ==> r == Success(Some(DefaultAlertThreshold))
    ensures v in {Null, Text("")} ==> r == Success(None)
    ensures v.Num? ==> (r.Success? <==> 1.0 <= v.x <= 100.0)
    ensures v.Num? && r.Success? ==> r.value == Some(v.x)
  {
    if v == Undefined then Success(Some(DefaultAlertThreshold))
    else
      var n :- CastNumber(v, "alert_threshold");
      if n.None? then Success(None)
      else if n.value < 1.0 || n.value > 100.0 then Failure(ValidationError("alert_threshold"))
      else Success(Some(n.value))
  }

  /** `new Budget({...}).save()`: the stored document, or why the save fails. */
  function NewBudget(id: Id, company: Id, project: Id, serviceName: Value, amount: Value,
                     period: Value, threshold: Value, now: Time): (r: Result<Budget, SaveError>)
    ensures r.Success? ==> ValidBudget(r.value)
    ensures r.Success? ==> r.value.id == id && r.value.company == company && r.value.project == project
    ensures r.Success? ==> r.value.status == BudgetStatus.Active && r.value.createdAt == now && r.value.updatedAt == now
    ensures r.Success? ==> serviceName.Text? && r.value.serviceName == Trim(serviceName.s)
    ensures r.Success? && amount.Num? ==> r.value.amount == amount.x
    ensures r.Success? && period == Undefined ==> r.value.period == Monthly
    ensures r.Success? && period.Text? ==> PeriodName(r.value.period) == period.s
    ensures r.Success? && threshold == Undefined ==> r.value.threshold == Some(DefaultAlertThreshold)
    ensures r.Success? && threshold.Num? ==> r.value.threshold == Some(threshold.x)
    ensures amount in {Undefined, Null} ==> r.Failure?
    ensures serviceName.Text? && Trim(serviceName.s) != [] && amount.Num? && amount.x >= 0.0
         && (period == Undefined || (period.Text? && period.s in {"daily", "weekly", "monthly"}))
         && (threshold == Undefined || (threshold.Num? && 1.0 <= threshold.x <= 100.0))
         ==> r.Success?
  {
    var name :- RequiredTrimmed(serviceName, "service_name");
    var a :- RequiredNonNegative(amount, "budget_amount");
    var p :- BudgetPeriodPath(period);
    var t :- AlertThresholdPath(threshold);
    Success(Budget(id, company, project, name, a, p, t, BudgetStatus.Active, now, now))
  }

  // ----- Alert ------------------------------------------------------------

  datatype AlertType = BudgetThreshold | CostSpike | System

  function AlertTypeName(t: AlertType): string {
    match t
    case BudgetThreshold => "budget_threshold"
    case CostSpike => "cost_spike"
    case System => "system"
  }

  function ParseAlertType(s: string): (r: Option<AlertType>)
    ensures r.Some? <==> s in {"budget_threshold", "cost_spike", "system"}
    ensures r.Some? ==> AlertTypeName(r.value) == s
  {
    if s == "budget_threshold" then Some(BudgetThreshold)
    else if s == "cost_spike" then Some(CostSpike)
    else if s == "system" then Some(System)
    else None
  }

  datatype AlertStatus = Active | Resolved

  /** An alert as stored; the schema has no `threshold` or `current_value` path. */
  datatype Alert = Alert(
    id: Id,
    company: Id,
    project: Id,
    serviceName: string,
    alertType: AlertType,
    message: string,
    status: AlertStatus,
    createdAt: Time,
    resolvedAt: Option<Time>)

  predicate ValidAlert(a: Alert) {
    a.serviceName != [] && Trimmed(a.serviceName) && a.message != []
  }

  /** `new Alert({...}).save()`; the status starts out `active`. */
  function NewAlert(id: Id, company: Id, project: Id, serviceName: Value, alertType: Value,
                    message: Value, now: Time): (r: Result<Alert, SaveError>)
    ensures r.Success? ==> ValidAlert(r.value)
    ensures r.Success? ==> r.value.id == id && r.value.company == company && r.value.project == project
    ensures r.Success? ==> r.value.status == AlertStatus.Active && r.value.createdAt == now && r.value.resolvedAt == None
    ensures r.Success? ==> alertType.Text? && AlertTypeName(r.value.alertType) == alertType.s
    ensures r.Success? ==> serviceName.Text? && r.value.serviceName == Trim(serviceName.s)
    ensures r.Success? ==> message == Text(r.value.message)
    ensures alertType.Text? && alertType.s !in {"budget_threshold", "cost_spike", "system"} ==> r.Failure?
    ensures serviceName.Text? && Trim(serviceName.s) != [] && message.Text? && message.s != []
         && alertType.Text? && alertType.s in {"budget_threshold", "cost_spike", "system"}
         ==> r.Success?
  {
    var name :- RequiredTrimmed(serviceName, "service_name");
    var kind :- (if alertType.Text? && ParseAlertType(alertType.s).Some?
                 then Success(ParseAlertType(alertType.s).value)
                 else Failure(ValidationError("alert_type")));
    var text :- (if message.Text? && message.s != [] then Success(message.s)
                 else Failure(ValidationError("message")));
    Success(Alert(id, company, project, name, kind, text, AlertStatus.Active, now, None))
  }

  // ----- CostData ---------------------------------------------------------

  /** A cost record as stored; the schema has no `request_details` path. */
  datatype CostRecord = CostRecord(
    company: Id,
    project: Id,
    serviceName: string,
    cost: real,
    usage: real,
    unit: string,
    date: Time,
    region: Option<string>,
    resourceId: Option<string>)

  predicate ValidCost(c: CostRecord) {
    && c.serviceName != [] && Trimmed(c.serviceName)
    && c.unit != [] && Trimmed(c.unit)
    && c.cost >= 0.0
    && c.usage >= 0.0
    && (c.region.Some? ==> Trimmed(c.region.value))
    && (c.resourceId.Some? ==> Trimmed(c.resourceId.value))
  }

  /** `new CostData({...}).save()`; an absent `date` defaults to now, `resource_id` is never given. */
  function NewCostRecord(company: Id, project: Option<Id>, serviceName: Value, cost: Value,
                         usage: Value, unit: Value, region: Value, date: Option<Time>,
                         now: Time): (r: Result<CostRecord, SaveError>)
    ensures r.Success? ==> ValidCost(r.value)
    ensures r.Success? ==> project.Some? && r.value.project == project.value && r.value.company == company
    ensures r.Success? ==> r.value.date == (if date.Some? then date.value else now)
    ensures r.Success? ==> serviceName.Text? && r.value.serviceName == Trim(serviceName.s)
    ensures r.Success? ==> unit.Text? && r.value.unit == Trim(unit.s)
    ensures r.Success? && cost.Num? ==> r.value.cost == cost.x
    ensures r.Success? && usage.Num? ==> r.value.usage == usage.x
    ensures r.Success? ==> r.value.resourceId == None
    ensures project.None? || cost in {Undefined, Null} || usage in {Undefined, Null} ==> r.Failure?
    ensures project.Some? && serviceName.Text? && Trim(serviceName.s) != []
         && cost.Num? && cost.x >= 0.0 && usage.Num? && usage.x >= 0.0
         && unit.Text? && Trim(unit.s) != [] && (region == Undefined || region.Text?)
         ==> r.Success?
  {
    var p :- (if project.Some? then Success(project.value) else Failure(ValidationError("project")));
    var name :- RequiredTrimmed(serviceName, "service_name");
    var c :- RequiredNonNegative(cost, "cost");
    var u :- RequiredNonNegative(usage, "usage_quantity");
    var un :- RequiredTrimmed(unit, "unit");
    var reg :- OptionalTrimmed(region, "region");
    Success(CostRecord(company, p, name, c, u, un, if date.Some? then date.value else now, reg, None))
  }

  // ----- Project ----------------------------------------------------------

  datatype ProjectStatus = Active | Archived

  function ProjectStatusName(s: ProjectStatus): string {
    match s
    case Active => "active"
    case Archived => "archived"
  }

  function ParseProjectStatus(s: string): (r: Option<ProjectStatus>)
    ensures r.Some? <==> s in {"active", "archived"}
    ensures r.Some? ==> ProjectStatusName(r.value) == s
  {
    if s == "active" then Some(ProjectStatus.Active)
    else if s == "archived" then Some(Archived)
    else None
  }

  datatype Project = Project(
    id: Id,
    name: string,
    company: Id,
    description: Option<string>,
    status: ProjectStatus,
    createdAt: Time)

  predicate ValidProject(p: Project) {
    p.name != [] && Trimmed(p.name) && (p.description.Some? ==> Trimmed(p.description.value))
  }

  /** `new Project({ name, description, company }).save()`; the status starts out `active`. */
  function NewProject(id: Id, name: Value, company: Id, description: Value, now: Time): (r: Result<Project, SaveError>)
    ensures r.Success? ==> ValidProject(r.value)
    ensures r.Success? ==> r.value.id == id && r.value.company == company
    ensures r.Success? ==> r.value.status == ProjectStatus.Active && r.value.createdAt == now
    ensures r.Success? ==> name.Text? && r.value.name == Trim(name.s)
    ensures name.Text? && Trim(name.s) != [] && (description in {Undefined, Null} || description.Text?) ==> r.Success?
  {
    var n :- RequiredTrimmed(name, "name");
    var d :- OptionalTrimmed(description, "description");
    Success(Project(id, n, company, d, ProjectStatus.Active, now))
  }
}
