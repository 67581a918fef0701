/**
 * The request validators shared by the server, the web app and InterTools.
 *
 * Each zod object schema becomes a function from the raw request fields
 * (`None` for a key that is absent) to either the validated value, with its
 * defaults filled in, or the list of issues zod reports, one group per field in
 * declaration order. Keys a schema does not declare are dropped by zod; the raw
 * input types here simply have no such keys. The email, url and uuid format
 * checks are zod internals and are passed in as oracles.
 */
module Schemas {
  import opened Wrappers
  import opened Js
  import opened Domain

  /** zod's built-in string format checks. */
  datatype Formats = Formats(isEmail: string -> bool, isUrl: string -> bool, isUuid: string -> bool)

  datatype IssueKind =
    | Required
    | TooShort(minimum: nat)
    | TooLong(maximum: nat)
    | InvalidFormat(format: string)
    | InvalidEnum(options: seq<string>)
    | NotInteger
    | TooSmall(least: int)
    | TooBig(most: int)

  /** One validation issue: the top-level key it concerns and what is wrong with it. */
  datatype Issue = Issue(field: string, kind: IssueKind)

  /** The keys an issue list complains about. */
  function Fields(issues: seq<Issue>): set<string> {
    set i | 0 <= i < |issues| :: issues[i].field
  }

  lemma FieldsConcat(a: seq<Issue>, b: seq<Issue>)
    ensures Fields(a + b) == Fields(a) + Fields(b)
  {
    forall f | f in Fields(a) ensures f in Fields(a + b) {
      var i :| 0 <= i < |a| && a[i].field == f;
      assert (a + b)[i] == a[i];
    }
    forall f | f in Fields(b) ensures f in Fields(a + b) {
      var i :| 0 <= i < |b| && b[i].field == f;
      assert (a + b)[|a| + i] == b[i];
    }
  }

  /** The issues of two groups of checks, in order. */
  function Then(a: seq<Issue>, b: seq<Issue>): (r: seq<Issue>)
    ensures r == a + b
    ensures Fields(r) == Fields(a) + Fields(b)
  {
    FieldsConcat(a, b);
    a + b
  }

  lemma FieldsOfOne(i: Issue)
    ensures Fields([i]) == {i.field}
  {
    assert [i][0] == i;
  }

  // ---------------------------------------------------------------------------
  // Field checks (one zod field declaration each)

  predicate LengthWithin(v: Option<string>, min: nat, max: nat) {
    v.Some? && min <= |v.value| <= max
  }

  predicate LengthAtLeast(v: Option<string>, min: nat) {
    v.Some? && min <= |v.value|
  }

  predicate AbsentOrAtMost(v: Option<string>, max: nat) {
    v.None? || |v.value| <= max
  }

  predicate IsIntegral(x: real) {
    x.Floor as real == x
  }

  /** `z.string().min(min)`, followed by `.max(max)` when `max` is given. */
  function StringField(field: string, v: Option<string>, min: nat, max: Option<nat>): (r: seq<Issue>)
    ensures r == [] <==> v.Some? && min <= |v.value| && (max.Some? ==> |v.value| <= max.value)
    ensures Fields(r) == if r == [] then {} else {field}
  {
    match v
    case None => FieldsOfOne(Issue(field, Required)); [Issue(field, Required)]
    case Some(s) =>
      var short := if |s| < min then [Issue(field, TooShort(min))] else [];
      var long := if max.Some? && |s| > max.value then [Issue(field, TooLong(max.value))] else [];
      FieldsOfOne(Issue(field, TooShort(min)));
      FieldsOfOne(Issue(field, TooLong(max.GetOr(0))));
      Then(short, long)
  }

  /** `z.string().max(max).optional()`. */
  function OptionalStringField(field: string, v: Option<string>, max: nat): (r: seq<Issue>)
    ensures r == [] <==> AbsentOrAtMost(v, max)
    ensures Fields(r) == if r == [] then {} else {field}
  {
    FieldsOfOne(Issue(field, TooLong(max)));
    if v.Some? && |v.value| > max then [Issue(field, TooLong(max))] else []
  }

  /** `z.string().email()`, `.url()` or `.uuid()`, with `.optional()` when `optional` holds. */
  function FormatField(field: string, v: Option<string>, ok: string -> bool, format: string, optional: bool): (r: seq<Issue>)
    ensures r == [] <==> (v.None? && optional) || (v.Some? && ok(v.value))
    ensures Fields(r) == if r == [] then {} else {field}
  {
    FieldsOfOne(Issue(field, Required));
    FieldsOfOne(Issue(field, InvalidFormat(format)));
    match v
    case None => if optional then [] else [Issue(field, Required)]
    case Some(s) => if ok(s) then [] else [Issue(field, InvalidFormat(format))]
  }

  /** `z.enum(options)`, with `.default(..)` or `.optional()` when `absentOk` holds. */
  function EnumField<E>(field: string, v: Option<string>, parse: string -> Option<E>, options: seq<string>, absentOk: bool): (r: seq<Issue>)
    ensures r == [] <==> (v.None? && absentOk) || (v.Some? && parse(v.value).Some?)
    ensures Fields(r) == if r == [] then {} else {field}
  {
    FieldsOfOne(Issue(field, Required));
    FieldsOfOne(Issue(field, InvalidEnum(options)));
    match v
    case None => if absentOk then [] else [Issue(field, Required)]
    case Some(s) => if parse(s).Some? then [] else [Issue(field, InvalidEnum(options))]
  }

  /**
   * `z.number()`, then `.int()` when `integral` holds, `.min(min)`, `.max(max)` when
   * given, and `.default(..)` when `absentOk` holds.
   */
  function NumberField(field: string, v: Option<real>, integral: bool, min: int, max: Option<int>, absentOk: bool): (r: seq<Issue>)
    ensures r == [] <==>
      (v.None? && absentOk)
      || (v.Some? && (integral ==> IsIntegral(v.value)) && min as real <= v.value
          && (max.Some? ==> v.value <= max.value as real))
    ensures Fields(r) == if r == [] then {} else {field}
  {
    FieldsOfOne(Issue(field, Required));
    FieldsOfOne(Issue(field, NotInteger));
    FieldsOfOne(Issue(field, TooSmall(min)));
    FieldsOfOne(Issue(field, TooBig(max.GetOr(0))));
    match v
    case None => if absentOk then [] else [Issue(field, Required)]
    case Some(x) =>
      var notInt := if integral && !IsIntegral(x) then [Issue(field, NotInteger)] else [];
      var small := if x < min as real then [Issue(field, TooSmall(min))] else [];
      var big := if max.Some? && x > max.value as real then [Issue(field, TooBig(max.value))] else [];
      Then(Then(notInt, small), big)
  }

  // ---------------------------------------------------------------------------
  // Users

  datatype CreateUserInput = CreateUserInput(username: Option<string>, email: Option<string>, password: Option<string>)
  datatype NewUser = NewUser(username: string, email: string, password: string)

  /** `createUserSchema.parse`. */
  function ParseCreateUser(f: Formats, raw: CreateUserInput): (r: Result<NewUser, seq<Issue>>)
    ensures r.Ok? <==>
      LengthWithin(raw.username, 3, 50) && raw.email.Some? && f.isEmail(raw.email.value)
      && LengthWithin(raw.password, 8, 100)
    ensures r.Ok? ==> r.value == NewUser(raw.username.value, raw.email.value, raw.password.value)
  {
    var issues := Then(Then(
      StringField("username", raw.username, 3, Some(50)),
      FormatField("email", raw.email, f.isEmail, "email", false)),
      StringField("password", raw.password, 8, Some(100)));
    if issues == [] then Ok(NewUser(raw.username.value, raw.email.value, raw.password.value))
    else Err(issues)
  }

  datatype LoginInput = LoginInput(username: Option<string>, password: Option<string>)
  datatype Credentials = Credentials(username: string, password: string)

  /** `loginSchema.parse`: minimum lengths only. */
  function ParseLogin(raw: LoginInput): (r: Result<Credentials, seq<Issue>>)
    ensures r.Ok? <==> LengthAtLeast(raw.username, 3) && LengthAtLeast(raw.password, 8)
    ensures r.Ok? ==> r.value == Credentials(raw.username.value, raw.password.value)
  {
    var issues := Then(
      StringField("username", raw.username, 3, None),
      StringField("password", raw.password, 8, None));
    if issues == [] then Ok(Credentials(raw.username.value, raw.password.value)) else Err(issues)
  }

  /** Every username and password that registration accepts, login accepts as well. */
  lemma LoginAcceptsRegisteredCredentials(f: Formats, raw: CreateUserInput)
    requires ParseCreateUser(f, raw).Ok?
    ensures ParseLogin(LoginInput(raw.username, raw.password))
         == Ok(Credentials(raw.username.value, raw.password.value))
  {
  }

  /** ... but not conversely: login has no maximum, so a 101-character password passes login only. */
  lemma {:induction false} LoginAcceptsLongerPasswords(f: Formats, username: string, email: string, password: string)
    requires |username| == 3 && |password| == 101 && f.isEmail(email)
    ensures ParseLogin(LoginInput(Some(username), Some(password))).Ok?
    ensures ParseCreateUser(f, CreateUserInput(Some(username), Some(email), Some(password))).Err?
  {
  }

  // ---------------------------------------------------------------------------
  // Projects

  datatype CreateProjectInput = CreateProjectInput(name: Option<string>, description: Option<string>, githubRepo: Option<string>)
  datatype NewProject = NewProject(name: string, description: Option<string>, githubRepo: Option<string>)

  /** `createProjectSchema.parse`. */
  function ParseCreateProject(raw: CreateProjectInput): (r: Result<NewProject, seq<Issue>>)
    ensures r.Ok? <==>
      LengthWithin(raw.name, 1, 255) && AbsentOrAtMost(raw.description, 1000) && AbsentOrAtMost(raw.githubRepo, 255)
    ensures r.Ok? ==> r.value == NewProject(raw.name.value, raw.description, raw.githubRepo)
  {
    var issues := Then(Then(
      StringField("name", raw.name, 1, Some(255)),
      OptionalStringField("description", raw.description, 1000)),
      OptionalStringField("githubRepo", raw.githubRepo, 255));
    if issues == [] then Ok(NewProject(raw.name.value, raw.description, raw.githubRepo)) else Err(issues)
  }

  datatype UpdateProjectInput = UpdateProjectInput(name: Option<string>, description: Option<string>, githubRepo: Option<string>, status: Option<string>)
  datatype ProjectUpdate = ProjectUpdate(name: Option<string>, description: Option<string>, githubRepo: Option<string>, status: Option<ProjectStatus>)

  /** `updateProjectSchema.parse`: the create bounds, each field optional, plus an optional status. */
  function ParseUpdateProject(raw: UpdateProjectInput): (r: Result<ProjectUpdate, seq<Issue>>)
    ensures r.Ok? <==>
      (raw.name.None? || 1 <= |raw.name.value| <= 255) && AbsentOrAtMost(raw.description, 1000)
      && AbsentOrAtMost(raw.githubRepo, 255) && (raw.status.None? || ParseProjectStatus(raw.status.value).Some?)
    ensures r.Ok? ==>
      && r.value.name == raw.name && r.value.description == raw.description
      && r.value.githubRepo == raw.githubRepo
      && (raw.status.Some? ==> r.value.status == ParseProjectStatus(raw.status.value))
      && (raw.status.None? ==> r.value.status.None?)
  {
    var nameIssues := if raw.name.None? then [] else StringField("name", raw.name, 1, Some(255));
    var issues := Then(Then(Then(
      nameIssues,
      OptionalStringField("description", raw.description, 1000)),
      OptionalStringField("githubRepo", raw.githubRepo, 255)),
      EnumField("status", raw.status, ParseProjectStatus, ["active", "archived", "deleted"], true));
    if issues == [] then
      Ok(ProjectUpdate(raw.name, raw.description, raw.githubRepo,
                       if raw.status.None? then None else ParseProjectStatus(raw.status.value)))
    else Err(issues)
  }

  /** An update that names no field at all is valid and changes nothing. */
  lemma UpdateProjectAcceptsEmpty()
    ensures ParseUpdateProject(UpdateProjectInput(None, None, None, None)) == Ok(ProjectUpdate(None, None, None, None))
  {
  }

  /** Every valid creation is also a valid update of the same fields. */
  lemma CreateProjectIsValidUpdate(raw: CreateProjectInput)
    requires ParseCreateProject(raw).Ok?
    ensures ParseUpdateProject(UpdateProjectInput(raw.name, raw.description, raw.githubRepo, None)).Ok?
  {
  }

  // ---------------------------------------------------------------------------
  // Runs

  datatype CreateRunInput = CreateRunInput(projectId: Option<string>, name: Option<string>, triggerType: Option<string>, config: Option<Record>)
  /** A validated run request; it has no status, so a client cannot choose one. */
  datatype NewRun = NewRun(projectId: string, name: string, triggerType: TriggerType, config: Record)

  /** `createRunSchema.parse`: config defaults to the empty record. */
  function ParseCreateRun(f: Formats, raw: CreateRunInput): (r: Result<NewRun, seq<Issue>>)
    ensures r.Ok? <==>
      raw.projectId.Some? && f.isUuid(raw.projectId.value) && LengthWithin(raw.name, 1, 255)
      && raw.triggerType.Some? && ParseTriggerType(raw.triggerType.value).Some?
    ensures r.Ok? ==>
      r.value.projectId == raw.projectId.value && r.value.name == raw.name.value
      && TriggerTypeName(r.value.triggerType) == raw.triggerType.value
      && r.value.config == raw.config.GetOr(map[])
  {
    var issues := Then(Then(
      FormatField("projectId", raw.projectId, f.isUuid, "uuid", false),
      StringField("name", raw.name, 1, Some(255))),
      EnumField("triggerType", raw.triggerType, ParseTriggerType, ["manual", "webhook", "scheduled"], false));
    if issues == [] then
      Ok(NewRun(raw.projectId.value, raw.name.value, ParseTriggerType(raw.triggerType.value).value, raw.config.GetOr(map[])))
    else Err(issues)
  }

  // ---------------------------------------------------------------------------
  // Logs

  datatype CreateLogInput = CreateLogInput(runId: Option<string>, projectId: Option<string>, level: Option<string>, message: Option<string>, metadata: Option<Record>, source: Option<string>)
  datatype NewLog = NewLog(runId: Option<string>, projectId: string, level: LogLevel, message: string, metadata: Record, source: string)

  /** `createLogSchema.parse`: level defaults to info, metadata to the empty record. */
  function ParseCreateLog(f: Formats, raw: CreateLogInput): (r: Result<NewLog, seq<Issue>>)
    ensures r.Ok? <==>
      (raw.runId.None? || f.isUuid(raw.runId.value)) && raw.projectId.Some? && f.isUuid(raw.projectId.value)
      && (raw.level.None? || ParseLogLevel(raw.level.value).Some?)
      && LengthAtLeast(raw.message, 1) && LengthAtLeast(raw.source, 1)
    ensures r.Ok? ==>
      r.value.runId == raw.runId && r.value.projectId == raw.projectId.value
      && (raw.level.None? ==> r.value.level == Info)
      && (raw.level.Some? ==> LogLevelName(r.value.level) == raw.level.value)
      && r.value.message == raw.message.value && r.value.source == raw.source.value
      && r.value.metadata == raw.metadata.GetOr(map[])
  {
    var issues := Then(Then(Then(Then(
      FormatField("runId", raw.runId, f.isUuid, "uuid", true),
      FormatField("projectId", raw.projectId, f.isUuid, "uuid", false)),
      EnumField("level", raw.level, ParseLogLevel, ["debug", "info", "warn", "error"], true)),
      StringField("message", raw.message, 1, None)),
      StringField("source", raw.source, 1, None));
    if issues == [] then
      Ok(NewLog(raw.runId, raw.projectId.value,
                if raw.level.None? then Info else ParseLogLevel(raw.level.value).value,
                raw.message.value, raw.metadata.GetOr(map[]), raw.source.value))
    else Err(issues)
  }

  // ---------------------------------------------------------------------------
  // Graph nodes and edges

  datatype CreateGraphNodeInput = CreateGraphNodeInput(runId: Option<string>, nodeId: Option<string>, nodeLabel: Option<string>, nodeType: Option<string>, positionX: Option<real>, positionY: Option<real>, metadata: Option<Record>)
  datatype NewGraphNode = NewGraphNode(runId: string, nodeId: string, nodeLabel: string, nodeType: NodeType, positionX: Option<real>, positionY: Option<real>, metadata: Record)

  /** `createGraphNodeSchema.parse`: metadata defaults to the empty record; positions are optional. */
  function ParseCreateGraphNode(f: Formats, raw: CreateGraphNodeInput): (r: Result<NewGraphNode, seq<Issue>>)
    ensures r.Ok? <==>
      raw.runId.Some? && f.isUuid(raw.runId.value) && LengthAtLeast(raw.nodeId, 1) && LengthAtLeast(raw.nodeLabel, 1)
      && raw.nodeType.Some? && ParseNodeType(raw.nodeType.value).Some?
    ensures r.Ok? ==>
      r.value.runId == raw.runId.value && r.value.nodeId == raw.nodeId.value && r.value.nodeLabel == raw.nodeLabel.value
      && NodeTypeName(r.value.nodeType) == raw.nodeType.value
      && r.value.positionX == raw.positionX && r.value.positionY == raw.positionY
      && r.value.metadata == raw.metadata.GetOr(map[])
  {
    var issues := Then(Then(Then(
      FormatField("runId", raw.runId, f.isUuid, "uuid", false),
      StringField("nodeId", raw.nodeId, 1, None)),
      StringField("label", raw.nodeLabel, 1, None)),
      EnumField("type", raw.nodeType, ParseNodeType, ["tool", "llm", "decision", "data"], false));
    if issues == [] then
      Ok(NewGraphNode(raw.runId.value, raw.nodeId.value, raw.nodeLabel.value, ParseNodeType(raw.nodeType.value).value,
                      raw.positionX, raw.positionY, raw.metadata.GetOr(map[])))
    else Err(issues)
  }

  datatype CreateGraphEdgeInput = CreateGraphEdgeInput(runId: Option<string>, sourceNodeId: Option<string>, targetNodeId: Option<string>, edgeLabel: Option<string>, edgeType: Option<string>, metadata: Option<Record>)
  datatype NewGraphEdge = NewGraphEdge(runId: string, sourceNodeId: string, targetNodeId: string, edgeLabel: Option<string>, edgeType: string, metadata: Record)

  /**
   * `createGraphEdgeSchema.parse`: type defaults to "default"; the endpoints need only be
   * non-empty and are not checked against any node.
   */
  function ParseCreateGraphEdge(f: Formats, raw: CreateGraphEdgeInput): (r: Result<NewGraphEdge, seq<Issue>>)
    ensures r.Ok? <==>
      raw.runId.Some? && f.isUuid(raw.runId.value)
      && LengthAtLeast(raw.sourceNodeId, 1) && LengthAtLeast(raw.targetNodeId, 1)
    ensures r.Ok? ==>
      r.value.runId == raw.runId.value
      && r.value.sourceNodeId == raw.sourceNodeId.value && r.value.targetNodeId == raw.targetNodeId.value
      && r.value.edgeLabel == raw.edgeLabel && r.value.edgeType == raw.edgeType.GetOr("default")
      && r.value.metadata == raw.metadata.GetOr(map[])
  {
    var issues := Then(Then(
      FormatField("runId", raw.runId, f.isUuid, "uuid", false),
      StringField("sourceNodeId", raw.sourceNodeId, 1, None)),
      StringField("targetNodeId", raw.targetNodeId, 1, None));
    if issues == [] then
      Ok(NewGraphEdge(raw.runId.value, raw.sourceNodeId.value, raw.targetNodeId.value, raw.edgeLabel,
                      raw.edgeType.GetOr("default"), raw.metadata.GetOr(map[])))
    else Err(issues)
  }

  // ---------------------------------------------------------------------------
  // Costs

  datatype CreateCostInput = CreateCostInput(runId: Option<string>, projectId: Option<string>, service: Option<string>, operation: Option<string>, model: Option<string>, tokensInput: Option<real>, tokensOutput: Option<real>, costUsd: Option<real>, metadata: Option<Record>)
  datatype NewCost = NewCost(runId: Option<string>, projectId: string, service: string, operation: string, model: Option<string>, tokensInput: nat, tokensOutput: nat, costUsd: real, metadata: Record)

  /** A token count as zod accepts it: absent, or a non-negative integer. */
  predicate TokenCountOk(v: Option<real>) {
    v.None? || (IsIntegral(v.value) && v.value >= 0.0)
  }

  /** The validated token count: the default 0 when absent. */
  function TokenCount(v: Option<real>): (n: nat)
    requires TokenCountOk(v)
    ensures v.None? ==> n == 0
    ensures v.Some? ==> n as real == v.value
  {
    if v.None? then 0 else v.value.Floor
  }

  /** The issues of the cost's identifying fields: run, project, service and operation. */
  function CostSubjectIssues(f: Formats, raw: CreateCostInput): (r: seq<Issue>)
    ensures r == [] <==>
      (raw.runId.None? || f.isUuid(raw.runId.value)) && raw.projectId.Some? && f.isUuid(raw.projectId.value)
      && LengthAtLeast(raw.service, 1) && LengthAtLeast(raw.operation, 1)
  {
    Then(Then(Then(
      FormatField("runId", raw.runId, f.isUuid, "uuid", true),
      FormatField("projectId", raw.projectId, f.isUuid, "uuid", false)),
      StringField("service", raw.service, 1, None)),
      StringField("operation", raw.operation, 1, None))
  }

  /** The issues of the cost's amounts: the two token counts and the cost in USD. */
  function CostAmountIssues(raw: CreateCostInput): (r: seq<Issue>)
    ensures r == [] <==>
      TokenCountOk(raw.tokensInput) && TokenCountOk(raw.tokensOutput) && raw.costUsd.Some? && raw.costUsd.value >= 0.0
  {
    Then(Then(
      NumberField("tokensInput", raw.tokensInput, true, 0, None, true),
      NumberField("tokensOutput", raw.tokensOutput, true, 0, None, true)),
      NumberField("costUsd", raw.costUsd, false, 0, None, false))
  }

  /**
   * `createCostSchema.parse`: token counts default to 0 and must be non-negative
   * integers; the cost must be present and non-negative.
   */
  function ParseCreateCost(f: Formats, raw: CreateCostInput): (r: Result<NewCost, seq<Issue>>)
    ensures r.Ok? <==>
      (raw.runId.None? || f.isUuid(raw.runId.value)) && raw.projectId.Some? && f.isUuid(raw.projectId.value)
      && LengthAtLeast(raw.service, 1) && LengthAtLeast(raw.operation, 1)
      && TokenCountOk(raw.tokensInput) && TokenCountOk(raw.tokensOutput)
      && raw.costUsd.Some? && raw.costUsd.value >= 0.0
    ensures r.Ok? ==>
      && r.value.runId == raw.runId && r.value.projectId == raw.projectId.value
      && r.value.service == raw.service.value && r.value.operation == raw.operation.value && r.value.model == raw.model
      && r.value.tokensInput == TokenCount(raw.tokensInput) && r.value.tokensOutput == TokenCount(raw.tokensOutput)
      && r.value.costUsd == raw.costUsd.value && r.value.metadata == raw.metadata.GetOr(map[])
  {
    var subject := CostSubjectIssues(f, raw);
    var amounts := CostAmountIssues(raw);
    if subject == [] && amounts == [] then
      Ok(NewCost(raw.runId, raw.projectId.value, raw.service.value, raw.operation.value, raw.model,
                 TokenCount(raw.tokensInput), TokenCount(raw.tokensOutput), raw.costUsd.value,
                 raw.metadata.GetOr(map[])))
    else Err(subject + amounts)
  }

  // ---------------------------------------------------------------------------
  // Pagination

  datatype PaginationInput = PaginationInput(page: Option<real>, limit: Option<real>)
  datatype Pagination = Pagination(page: nat, limit: nat)

  /** `paginationSchema.parse`: page an integer of at least 1 (default 1), limit an integer in 1..100 (default 20). */
  function ParsePagination(raw: PaginationInput): (r: Result<Pagination, seq<Issue>>)
    ensures r.Ok? <==>
      (raw.page.None? || (IsIntegral(raw.page.value) && raw.page.value >= 1.0))
      && (raw.limit.None? || (IsIntegral(raw.limit.value) && 1.0 <= raw.limit.value <= 100.0))
    ensures r.Ok? ==> r.value.page >= 1 && 1 <= r.value.limit <= 100
    ensures r.Ok? ==> (raw.page.None? ==> r.value.page == 1) && (raw.page.Some? ==> r.value.page as real == raw.page.value)
    ensures r.Ok? ==> (raw.limit.None? ==> r.value.limit == 20) && (raw.limit.Some? ==> r.value.limit as real == raw.limit.value)
  {
    var issues := Then(
      NumberField("page", raw.page, true, 1, None, true),
      NumberField("limit", raw.limit, true, 1, Some(100), true));
    if issues == [] then
      Ok(Pagination(if raw.page.None? then 1 else raw.page.value.Floor,
                    if raw.limit.None? then 20 else raw.limit.value.Floor))
    else Err(issues)
  }

  // ---------------------------------------------------------------------------
  // InterTools

  datatype InterToolsMessageInput = InterToolsMessageInput(htmlSnippet: Option<string>, url: Option<string>, projectId: Option<string>, metadata: Option<Record>)
  datatype InterToolsMessage = InterToolsMessage(htmlSnippet: string, url: string, projectId: string, metadata: Record)

  /** `interToolsMessageSchema.parse`: a non-empty snippet, a url, a uuid project id, metadata defaulting to `{}`. */
  function ParseInterToolsMessage(f: Formats, raw: InterToolsMessageInput): (r: Result<InterToolsMessage, seq<Issue>>)
    ensures r.Ok? <==>
      LengthAtLeast(raw.htmlSnippet, 1) && raw.url.Some? && f.isUrl(raw.url.value)
      && raw.projectId.Some? && f.isUuid(raw.projectId.value)
    ensures r.Ok? ==>
      r.value == InterToolsMessage(raw.htmlSnippet.value, raw.url.value, raw.projectId.value, raw.metadata.GetOr(map[]))
  {
    var issues := Then(Then(
      StringField("htmlSnippet", raw.htmlSnippet, 1, None),
      FormatField("url", raw.url, f.isUrl, "url", false)),
      FormatField("projectId", raw.projectId, f.isUuid, "uuid", false));
    if issues == [] then
      Ok(InterToolsMessage(raw.htmlSnippet.value, raw.url.value, raw.projectId.value, raw.metadata.GetOr(map[])))
    else Err(issues)
  }
}
