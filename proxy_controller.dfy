/**
  The provider proxy: the per-provider, per-model rate tables, the token
  estimate, the bookkeeping each proxy handler does around the upstream call
  (one usage record on success, one zero record on failure), and the usage
  listing of one provider.
*/
module ProxyController {
  import opened Wrappers
  import opened Js
  import opened Models
  import opened Http
  import opened Query
  import opened Store

  datatype Provider = Gemini | OpenAI | Anthropic | Mistral | Cohere

  /** The `service_name` the handlers record. */
  function ServiceName(p: Provider): string {
    match p
    case Gemini => "Gemini"
    case OpenAI => "OpenAI"
    case Anthropic => "Anthropic"
    case Mistral => "Mistral"
    case Cohere => "Cohere"
  }

  /** `req.query.model || <default>`'s default. */
  function DefaultModel(p: Provider): string {
    match p
    case Gemini => "gemini-pro"
    case OpenAI => "gpt-3.5-turbo"
    case Anthropic => "claude-2"
    case Mistral => "mistral-medium"
    case Cohere => "command"
  }

  function KeyRequired(p: Provider): string {
    ServiceName(p) + " API key is required"
  }

  function ProcessFailed(p: Provider): string {
    "Failed to process " + ServiceName(p) + " request"
  }

  function UsageFailed(service: string): string {
    "Failed to fetch " + service + " usage data"
  }

  const TokensUnit: string := "TOKENS"

  // ----- cost arithmetic --------------------------------------------------

  /** The price of one input and one output token. */
  datatype Rates = Rates(input: real, output: real)

  /** `rates[model]` in the provider's table; None for a model the table does not list. */
  function ListedRates(p: Provider, model: string): Option<Rates> {
    match p
    case Gemini =>
      if model == "gemini-pro" || model == "gemini-pro-vision" then Some(Rates(0.00001, 0.00002)) else None
    case OpenAI =>
      if model == "gpt-4" then Some(Rates(0.00003, 0.00006))
      else if model == "gpt-3.5-turbo" then Some(Rates(0.000001, 0.000002))
      else None
    case Anthropic =>
      if model == "claude-2" then Some(Rates(0.000011, 0.000032))
      else if model == "claude-instant" then Some(Rates(0.000163, 0.000551))
      else None
    case Mistral =>
      if model == "mistral-small" then Some(Rates(0.000002, 0.000006))
      else if model == "mistral-medium" then Some(Rates(0.000007, 0.000021))
      else if model == "mistral-large" then Some(Rates(0.000015, 0.000045))
      else None
    case Cohere =>
      if model == "command" then Some(Rates(0.000015, 0.00002))
      else if model == "command-light" then Some(Rates(0.000005, 0.000015))
      else None
  }

  /** `rates[model] || rates[<default>]`: a listed model's rates, otherwise the default model's. */
  function ModelRates(p: Provider, model: string): (r: Rates)
    ensures ListedRates(p, model).Some? ==> r == ListedRates(p, model).value
    ensures ListedRates(p, model).None? ==> ListedRates(p, DefaultModel(p)) == Some(r)
    ensures r.input > 0.0 && r.output > 0.0
  {
    match ListedRates(p, model)
    case Some(r) => r
    case None => ListedRates(p, DefaultModel(p)).value
  }

  /** `calculate<Provider>Cost`: each token count times its rate. */
  function Cost(p: Provider, inputTokens: nat, outputTokens: nat, model: string): (c: real)
    ensures c >= 0.0
    ensures c == 0.0 <==> inputTokens == 0 && outputTokens == 0
  {
    var r := ModelRates(p, model);
    inputTokens as real * r.input + outputTokens as real * r.output
  }

  /** More tokens of either kind never cost less. */
  lemma CostMonotone(p: Provider, model: string, in1: nat, out1: nat, in2: nat, out2: nat)
    requires in1 <= in2 && out1 <= out2
    ensures Cost(p, in1, out1, model) <= Cost(p, in2, out2, model)
  {
    var r := ModelRates(p, model);
    assert in1 as real * r.input <= in2 as real * r.input;
    assert out1 as real * r.output <= out2 as real * r.output;
  }

  /** The cost of a request is the cost of its input plus the cost of its output. */
  lemma CostSplits(p: Provider, model: string, inputTokens: nat, outputTokens: nat)
    ensures Cost(p, inputTokens, outputTokens, model) == Cost(p, inputTokens, 0, model) + Cost(p, 0, outputTokens, model)
  {
  }

  /** A model the table does not list is priced as the provider's default model. */
  lemma UnknownModelPricedAsDefault(p: Provider, model: string, inputTokens: nat, outputTokens: nat)
    requires ListedRates(p, model).None?
    ensures Cost(p, inputTokens, outputTokens, model) == Cost(p, inputTokens, outputTokens, DefaultModel(p))
  {
    assert ListedRates(p, DefaultModel(p)).Some?;
  }

  /**
    `countTokens`: 0 for falsy content (None), otherwise a quarter of the
    `.length` of its JSON text, in UTF-16 code units, rounded up.
  */
  function CountTokens(json: Option<string>): (n: nat)
    ensures json.None? ==> n == 0
    ensures json.Some? ==> 4 * n >= Utf16Length(json.value) && 4 * n < Utf16Length(json.value) + 4
  {
    if json.None? then 0 else (Utf16Length(json.value) + 3) / 4
  }

  /** A character beyond U+FFFF counts as two code units: three emoji make two tokens, not one. */
  lemma AstralCountsTwice()
    ensures CountTokens(Some("\U{1F600}\U{1F600}\U{1F600}")) == 2
  {
    var s := "\U{1F600}\U{1F600}\U{1F600}";
    assert s[..2][..1] == s[..1] && s[..1][..0] == [];
    assert Utf16Length(s[..1]) == 2;
    assert Utf16Length(s[..2]) == 4;
  }

  /** Appending to the JSON text never estimates fewer tokens. */
  lemma AppendNeverFewerTokens(a: string, b: string)
    ensures CountTokens(Some(a)) <= CountTokens(Some(a + b))
  {
    Utf16LengthAppend(a, b);
  }

  /** JSON text with more code units never estimates fewer tokens. */
  lemma CountTokensMonotone(a: string, b: string)
    requires Utf16Length(a) <= Utf16Length(b)
    ensures CountTokens(Some(a)) <= CountTokens(Some(b))
  {
  }

  // ----- proxy handlers ---------------------------------------------------

  /**
    What the upstream call returned: the JSON of the request and response
    contents and the token figures it reported; or it threw.
  */
  datatype Upstream =
    | Answered(requestContent: Option<string>, responseContent: Option<string>, promptTokens: nat, completionTokens: nat)
    | Failed

  /**
    The input and output token counts a handler records: Gemini and Anthropic
    estimate them from the contents, the others take the upstream's figures.
  */
  function Tokens(p: Provider, a: Upstream): (t: (nat, nat))
    requires a.Answered?
    ensures p in {Gemini, Anthropic} ==> t == (CountTokens(a.requestContent), CountTokens(a.responseContent))
    ensures p !in {Gemini, Anthropic} ==> t == (a.promptTokens, a.completionTokens)
  {
    if p == Gemini || p == Anthropic then (CountTokens(a.requestContent), CountTokens(a.responseContent))
    else (a.promptTokens, a.completionTokens)
  }

  /**
    The answer: the upstream's body forwarded, an error reply, or the end of
    the server. When the save inside the error path rejects, nothing catches
    it (`handleProxyError` is not awaited, and Gemini's handler awaits its
    save inside its own catch), so the process's `unhandledRejection` handler
    exits with status 1: this request, and every other one in flight, goes
    unanswered.
  */
  datatype ProxyReply = Forwarded | Rejected(status: nat, error: string) | ProcessExits

  /** The records a handler saved and what it answered. */
  datatype ProxyOutcome = ProxyOutcome(saved: seq<CostRecord>, reply: ProxyReply)

  /** The `x-project-id` header cast to an ObjectId; None when it is absent or malformed. */
  function ProjectOf(header: Option<string>): Option<Id> {
    if header.Some? then ParseId(Text(header.value)) else None
  }

  /** `req.query.model || <default>`. */
  function ModelOf(p: Provider, param: Option<string>): string {
    if param.Some? && param.value != "" then param.value else DefaultModel(p)
  }

  /** A provider's service name is non-empty and free of surrounding blanks, so `trim` keeps it. */
  lemma NameTrimmed(p: Provider)
    ensures ServiceName(p) != [] && Trimmed(ServiceName(p))
  {
    var name := ServiceName(p);
    assert name[0] in "GOAMC" && name[|name| - 1] in "iIcle";
  }

  /** The token record a handler saves for a service; it saves exactly when there is a project. */
  function TokensRecord(name: string, company: Id, project: Option<Id>, cost: real, usage: real,
                        now: Time): (r: Result<CostRecord, SaveError>)
    requires name != [] && Trimmed(name) && cost >= 0.0 && usage >= 0.0
    ensures r.Success? <==> project.Some?
    ensures r.Success? ==>
              && r.value.usage == usage && r.value.cost == cost
              && r.value.unit == TokensUnit && r.value.serviceName == name
              && r.value.company == company && r.value.project == project.value
              && r.value.date == now && ValidCost(r.value)
  {
    assert Trimmed(TokensUnit);
    NewCostRecord(company, project, Text(name), Num(cost), Num(usage), Text(TokensUnit), Undefined, None, now)
  }

  /** The record of a request that got an answer; it saves exactly when there is a project. */
  function SuccessRecord(p: Provider, company: Id, project: Option<Id>, inputTokens: nat, outputTokens: nat,
                         model: string, now: Time): (r: Result<CostRecord, SaveError>)
    ensures r.Success? <==> project.Some?
    ensures r.Success? ==>
              && r.value.usage == (inputTokens + outputTokens) as real
              && r.value.cost == Cost(p, inputTokens, outputTokens, model)
              && r.value.unit == TokensUnit && r.value.serviceName == ServiceName(p)
              && r.value.company == company && r.value.project == project.value
              && r.value.date == now && ValidCost(r.value)
  {
    NameTrimmed(p);
    TokensRecord(ServiceName(p), company, project, Cost(p, inputTokens, outputTokens, model),
                 (inputTokens + outputTokens) as real, now)
  }

  /** The zero record of a failed request; it saves exactly when there is a project. */
  function FailureRecord(p: Provider, company: Id, project: Option<Id>, now: Time): (r: Result<CostRecord, SaveError>)
    ensures r.Success? <==> project.Some?
    ensures r.Success? ==>
              && r.value.usage == 0.0 && r.value.cost == 0.0
              && r.value.unit == TokensUnit && r.value.serviceName == ServiceName(p)
              && r.value.company == company && r.value.project == project.value
              && r.value.date == now && ValidCost(r.value)
  {
    NameTrimmed(p);
    TokensRecord(ServiceName(p), company, project, 0.0, 0.0, now)
  }

  /**
    `handleProxyError` (Gemini's own catch block does the same): with a user,
    a zero record is saved and 500 answered; a project header that cannot be
    saved makes that save throw, so nothing is answered.
  */
  function HandleProxyError(p: Provider, user: Option<Id>, project: Option<Id>, now: Time): (o: ProxyOutcome)
    ensures user.None? ==> o == ProxyOutcome([], Rejected(500, ProcessFailed(p)))
    ensures user.Some? && project.Some? ==>
              o.reply == Rejected(500, ProcessFailed(p)) && |o.saved| == 1
              && o.saved[0].cost == 0.0 && o.saved[0].usage == 0.0 && o.saved[0].unit == TokensUnit
              && o.saved[0].serviceName == ServiceName(p)
              && o.saved[0].company == user.value && o.saved[0].project == project.value
    ensures user.Some? && project.None? ==> o == ProxyOutcome([], ProcessExits)
  {
    NameTrimmed(p);
    assert Trim(ServiceName(p)) == ServiceName(p);
    if user.None? then ProxyOutcome([], Rejected(500, ProcessFailed(p)))
    else
      match FailureRecord(p, user.value, project, now)
      case Success(r) => ProxyOutcome([r], Rejected(500, ProcessFailed(p)))
      case Failure(_) => ProxyOutcome([], ProcessExits)
  }

  /**
    One proxy handler: reading `req.user` throws without a user; a missing
    key is 400 before any upstream call; an answered call is recorded with
    its tokens and cost; a failed call, or a failed save, goes to the error
    path.
  */
  function ProxyOutcomeOf(p: Provider, user: Option<Id>, projectHeader: Option<string>, apiKey: Option<string>,
                          modelParam: Option<string>, upstream: Upstream, now: Time): (o: ProxyOutcome)
    ensures forall i :: 0 <= i < |o.saved| ==> ValidCost(o.saved[i])
  {
    var project := ProjectOf(projectHeader);
    if user.None? then HandleProxyError(p, user, project, now)
    else if apiKey.None? || apiKey.value == "" then ProxyOutcome([], Rejected(400, KeyRequired(p)))
    else if upstream.Failed? then HandleProxyError(p, user, project, now)
    else
      var (inputTokens, outputTokens) := Tokens(p, upstream);
      match SuccessRecord(p, user.value, project, inputTokens, outputTokens, ModelOf(p, modelParam), now)
      case Success(r) => ProxyOutcome([r], Forwarded)
      case Failure(_) => HandleProxyError(p, user, project, now)
  }

  /** A missing key is answered 400 and nothing is recorded. */
  lemma MissingKeyRecordsNothing(p: Provider, user: Option<Id>, projectHeader: Option<string>, apiKey: Option<string>,
                                 modelParam: Option<string>, upstream: Upstream, now: Time)
    requires user.Some? && (apiKey.None? || apiKey.value == "")
    ensures ProxyOutcomeOf(p, user, projectHeader, apiKey, modelParam, upstream, now)
            == ProxyOutcome([], Rejected(400, KeyRequired(p)))
  {
  }

  /**
    A forwarded answer was recorded exactly once: the success record of its
    tokens at the model's price (whose fields `SuccessRecord` states).
  */
  lemma ForwardedRecordsUsage(p: Provider, user: Option<Id>, projectHeader: Option<string>, apiKey: Option<string>,
                              modelParam: Option<string>, upstream: Upstream, now: Time)
    ensures var o := ProxyOutcomeOf(p, user, projectHeader, apiKey, modelParam, upstream, now);
            o.reply == Forwarded ==>
              && user.Some? && apiKey.Some? && apiKey.value != "" && upstream.Answered?
              && ProjectOf(projectHeader).Some?
              && var (i, out) := Tokens(p, upstream);
                 var r := SuccessRecord(p, user.value, ProjectOf(projectHeader), i, out, ModelOf(p, modelParam), now);
                 r.Success? && o.saved == [r.value]
  {
  }

  /** An answered call with a user, a key and a valid project header is forwarded. */
  lemma AnsweredIsForwarded(p: Provider, user: Option<Id>, projectHeader: Option<string>, apiKey: Option<string>,
                            modelParam: Option<string>, upstream: Upstream, now: Time)
    requires user.Some? && apiKey.Some? && apiKey.value != "" && upstream.Answered? && ProjectOf(projectHeader).Some?
    ensures ProxyOutcomeOf(p, user, projectHeader, apiKey, modelParam, upstream, now).reply == Forwarded
  {
  }

  /** A failed upstream call with a user and a valid project header leaves one zero record and a 500. */
  lemma FailureRecordsZero(p: Provider, user: Option<Id>, projectHeader: Option<string>, apiKey: Option<string>,
                           modelParam: Option<string>, now: Time)
    requires user.Some? && apiKey.Some? && apiKey.value != "" && ProjectOf(projectHeader).Some?
    ensures var o := ProxyOutcomeOf(p, user, projectHeader, apiKey, modelParam, Failed, now);
            o.reply == Rejected(500, ProcessFailed(p)) && |o.saved| == 1
            && o.saved[0].cost == 0.0 && o.saved[0].usage == 0.0 && o.saved[0].unit == TokensUnit
  {
  }

  /**
    Every handler saves at most one record, and it ends the process exactly
    when a user and a key were given but the project header is not a valid id.
  */
  lemma ProxyOutcomeShape(p: Provider, user: Option<Id>, projectHeader: Option<string>, apiKey: Option<string>,
                          modelParam: Option<string>, upstream: Upstream, now: Time)
    ensures var o := ProxyOutcomeOf(p, user, projectHeader, apiKey, modelParam, upstream, now);
            && |o.saved| <= 1
            && (o.reply == ProcessExits <==> user.Some? && apiKey.Some? && apiKey.value != "" && ProjectOf(projectHeader).None?)
            && (o.saved != [] <==> user.Some? && apiKey.Some? && apiKey.value != "" && ProjectOf(projectHeader).Some?)
  {
    var o := ProxyOutcomeOf(p, user, projectHeader, apiKey, modelParam, upstream, now);
    if user.None? {
      assert o == HandleProxyError(p, user, ProjectOf(projectHeader), now);
    } else if apiKey.None? || apiKey.value == "" {
      MissingKeyRecordsNothing(p, user, projectHeader, apiKey, modelParam, upstream, now);
    } else if upstream.Failed? {
      FailedShape(p, user.value, projectHeader, apiKey, modelParam, now);
    } else {
      AnsweredShape(p, user.value, projectHeader, apiKey, modelParam, upstream, now);
    }
  }

  /** At most one record; the process exits exactly without a project, and a record is saved exactly with one. */
  predicate OutcomeShape(o: ProxyOutcome, project: Option<Id>) {
    && |o.saved| <= 1
    && (o.reply == ProcessExits <==> project.None?)
    && (o.saved != [] <==> project.Some?)
  }

  /** The shape of a failed upstream call. */
  lemma FailedShape(p: Provider, user: Id, projectHeader: Option<string>, apiKey: Option<string>,
                    modelParam: Option<string>, now: Time)
    requires apiKey.Some? && apiKey.value != ""
    ensures OutcomeShape(ProxyOutcomeOf(p, Some(user), projectHeader, apiKey, modelParam, Failed, now), ProjectOf(projectHeader))
  {
    var project := ProjectOf(projectHeader);
    assert ProxyOutcomeOf(p, Some(user), projectHeader, apiKey, modelParam, Failed, now)
        == HandleProxyError(p, Some(user), project, now);
    ErrorPathShape(p, user, project, now);
  }

  /** The shape of an answered upstream call: forwarded with a project, the error path without. */
  lemma AnsweredShape(p: Provider, user: Id, projectHeader: Option<string>, apiKey: Option<string>,
                      modelParam: Option<string>, upstream: Upstream, now: Time)
    requires apiKey.Some? && apiKey.value != "" && upstream.Answered?
    ensures OutcomeShape(ProxyOutcomeOf(p, Some(user), projectHeader, apiKey, modelParam, upstream, now), ProjectOf(projectHeader))
  {
    var project := ProjectOf(projectHeader);
    if project.Some? {
      AnsweredIsForwarded(p, Some(user), projectHeader, apiKey, modelParam, upstream, now);
      ForwardedRecordsUsage(p, Some(user), projectHeader, apiKey, modelParam, upstream, now);
    } else {
      var t := Tokens(p, upstream);
      assert SuccessRecord(p, user, project, t.0, t.1, ModelOf(p, modelParam), now).Failure?;
      assert ProxyOutcomeOf(p, Some(user), projectHeader, apiKey, modelParam, upstream, now)
          == HandleProxyError(p, Some(user), project, now);
      ErrorPathShape(p, user, project, now);
    }
  }

  /** The error path saves one record exactly when there is a project, and exits the process otherwise. */
  lemma ErrorPathShape(p: Provider, user: Id, project: Option<Id>, now: Time)
    ensures OutcomeShape(HandleProxyError(p, Some(user), project, now), project)
  {
  }

  /** Runs a proxy handler against the store: the records it saves are appended. */
  method ProxyRequest(db: Db, p: Provider, user: Option<Id>, projectHeader: Option<string>, apiKey: Option<string>,
                      modelParam: Option<string>, upstream: Upstream, now: Time) returns (reply: ProxyReply)
    requires db.Valid()
    modifies db`costs
    ensures db.Valid()
    ensures var o := ProxyOutcomeOf(p, user, projectHeader, apiKey, modelParam, upstream, now);
            reply == o.reply && db.costs == old(db.costs) + o.saved
  {
    var o := ProxyOutcomeOf(p, user, projectHeader, apiKey, modelParam, upstream, now);
    if o.saved != [] {
      db.InsertCosts(o.saved);
    }
    reply := o.reply;
  }

  // ----- getServiceUsage --------------------------------------------------

  predicate UsageOf(c: CostRecord, company: Id, project: Id, service: string) {
    c.company == company && c.project == project && c.serviceName == service
  }

  /** The most records `getServiceUsage` returns. */
  const UsageLimit: nat := 100

  /**
    `getServiceUsage`: the first 100 records of the provider's service for the
    company and project. CostData has no `created_at` path, so the sort
    leaves storage order. Without the header nothing matches; a malformed
    header fails the cast (500).
  */
  function GetServiceUsage(costs: seq<CostRecord>, company: Id, projectHeader: Option<string>,
                           service: string): (r: Reply<seq<CostRecord>>)
    ensures projectHeader.Some? && ParseId(Text(projectHeader.value)).None? ==> r == Err(500, UsageFailed(service))
    ensures projectHeader.None? ==> r == Ok(200, [])
    ensures r.Ok? ==> r.status == 200 && |r.body| <= UsageLimit
    ensures r.Ok? && projectHeader.Some? ==>
      var matching := Filter(costs, (c: CostRecord) => UsageOf(c, company, ParseId(Text(projectHeader.value)).value, service));
      |r.body| == (if |matching| <= UsageLimit then |matching| else UsageLimit) && r.body == matching[..|r.body|]
    ensures r.Ok? && projectHeader.Some? ==>
      forall i :: 0 <= i < |r.body| ==> r.body[i] in costs
                                        && UsageOf(r.body[i], company, ParseId(Text(projectHeader.value)).value, service)
  {
    if projectHeader.None? then Ok(200, [])
    else
      match ParseId(Text(projectHeader.value))
      case None => Err(500, UsageFailed(service))
      case Some(project) =>
        var matching := Filter(costs, (c: CostRecord) => UsageOf(c, company, project, service));
        Ok(200, Take(matching, UsageLimit))
  }
}
