/**
 * The shared constants: the API route table, the status and level vocabularies,
 * the pagination defaults and the validation limits, with the facts that tie them
 * to the validators.
 */
module Constants {
  import opened Wrappers
  import opened Domain
  import opened Schemas

  // ---------------------------------------------------------------------------
  // API_ROUTES

  const AuthLogin := "/api/auth/login"
  const AuthRegister := "/api/auth/register"
  const AuthRefresh := "/api/auth/refresh"
  const AuthMe := "/api/auth/me"

  const ProjectsList := "/api/projects"
  const ProjectsCreate := "/api/projects"
  function ProjectsGet(id: string): string { "/api/projects/" + id }
  function ProjectsUpdate(id: string): string { "/api/projects/" + id }
  function ProjectsDelete(id: string): string { "/api/projects/" + id }

  const RunsList := "/api/runs"
  const RunsCreate := "/api/runs"
  function RunsGet(id: string): string { "/api/runs/" + id }
  function RunsLogs(id: string): string { "/api/runs/" + id + "/logs" }
  function RunsGraph(id: string): string { "/api/runs/" + id + "/graph" }
  function RunsCosts(id: string): string { "/api/runs/" + id + "/costs" }

  const IntegrationsList := "/api/integrations"
  const IntegrationsCreate := "/api/integrations"
  function IntegrationsGet(id: string): string { "/api/integrations/" + id }
  function IntegrationsUpdate(id: string): string { "/api/integrations/" + id }
  function IntegrationsDelete(id: string): string { "/api/integrations/" + id }

  /** Reading, updating and deleting a project or an integration address the same path. */
  lemma ItemRoutesCoincide(id: string)
    ensures ProjectsGet(id) == ProjectsUpdate(id) == ProjectsDelete(id)
    ensures IntegrationsGet(id) == IntegrationsUpdate(id) == IntegrationsDelete(id)
    ensures ProjectsList == ProjectsCreate && RunsList == RunsCreate && IntegrationsList == IntegrationsCreate
  {
  }

  /** A run's logs, graph and costs live directly under the run's own path. */
  lemma RunSubRoutes(id: string)
    ensures RunsLogs(id) == RunsGet(id) + "/logs"
    ensures RunsGraph(id) == RunsGet(id) + "/graph"
    ensures RunsCosts(id) == RunsGet(id) + "/costs"
  {
  }

  /** Item paths are the collection path, a slash and the id, so different ids give different paths. */
  lemma ItemRoutesInjective(a: string, b: string)
    ensures RunsGet(a) == RunsGet(b) ==> a == b
    ensures ProjectsGet(a) == ProjectsGet(b) ==> a == b
    ensures IntegrationsGet(a) == IntegrationsGet(b) ==> a == b
    ensures ProjectsGet(a) == ProjectsList + "/" + a
  {
    if RunsGet(a) == RunsGet(b) {
      assert a == RunsGet(a)[|"/api/runs/"|..];
    }
    if ProjectsGet(a) == ProjectsGet(b) {
      assert a == ProjectsGet(a)[|"/api/projects/"|..];
    }
    if IntegrationsGet(a) == IntegrationsGet(b) {
      assert a == IntegrationsGet(a)[|"/api/integrations/"|..];
    }
  }

  // ---------------------------------------------------------------------------
  // RUN_STATUS, LOG_LEVELS and NODE_TYPES

  const RunStatusQueued := "queued"
  const RunStatusRunning := "running"
  const RunStatusCompleted := "completed"
  const RunStatusFailed := "failed"
  const RunStatusCancelled := "cancelled"

  const RunStatusValues: seq<string> := [RunStatusQueued, RunStatusRunning, RunStatusCompleted, RunStatusFailed, RunStatusCancelled]

  /** RUN_STATUS lists exactly the names of the run-status enum, each once. */
  lemma RunStatusValuesAreTheEnum()
    ensures forall s: RunStatus :: RunStatusName(s) in RunStatusValues
    ensures forall v :: v in RunStatusValues <==> ParseRunStatus(v).Some?
    ensures forall i, j :: 0 <= i < j < |RunStatusValues| ==> RunStatusValues[i] != RunStatusValues[j]
  {
    forall v ensures v in RunStatusValues <==> ParseRunStatus(v).Some? {
      if ParseRunStatus(v).Some? {
        assert RunStatusName(ParseRunStatus(v).value) == v;
      }
    }
  }

  const LogLevelValues: seq<string> := ["debug", "info", "warn", "error"]

  /** LOG_LEVELS lists exactly the names of the log-level enum. */
  lemma LogLevelValuesAreTheEnum()
    ensures forall l: LogLevel :: LogLevelName(l) in LogLevelValues
    ensures forall v :: v in LogLevelValues <==> ParseLogLevel(v).Some?
  {
    forall v ensures v in LogLevelValues <==> ParseLogLevel(v).Some? {
      if ParseLogLevel(v).Some? {
        assert LogLevelName(ParseLogLevel(v).value) == v;
      }
    }
  }

  const NodeTypeValues: seq<string> := ["tool", "llm", "decision", "data"]

  /** NODE_TYPES lists exactly the names of the node-type enum. */
  lemma NodeTypeValuesAreTheEnum()
    ensures forall t: NodeType :: NodeTypeName(t) in NodeTypeValues
    ensures forall v :: v in NodeTypeValues <==> ParseNodeType(v).Some?
  {
    forall v ensures v in NodeTypeValues <==> ParseNodeType(v).Some? {
      if ParseNodeType(v).Some? {
        assert NodeTypeName(ParseNodeType(v).value) == v;
      }
    }
  }

  // ---------------------------------------------------------------------------
  // DEFAULT_PAGINATION and VALIDATION_LIMITS

  const DefaultPage := 1
  const DefaultLimit := 20
  const MaxLimit := 100

  const UsernameMin := 3
  const UsernameMax := 50
  const PasswordMin := 8
  const PasswordMax := 100
  const ProjectNameMax := 255
  const ProjectDescriptionMax := 1000
  const LogMessageMax := 10000

  /** The pagination defaults are the schema's defaults, and no accepted limit exceeds MAX_LIMIT. */
  lemma PaginationDefaultsAgree(raw: PaginationInput)
    ensures ParsePagination(PaginationInput(None, None)) == Ok(Pagination(DefaultPage, DefaultLimit))
    ensures ParsePagination(raw).Ok? ==> ParsePagination(raw).value.limit <= MaxLimit
    ensures ParsePagination(PaginationInput(None, Some(MaxLimit as real))).Ok?
    ensures !ParsePagination(PaginationInput(None, Some((MaxLimit + 1) as real))).Ok?
  {
  }

  /** The username and password limits are exactly the bounds registration enforces. */
  lemma UserLimitsAgree(f: Formats, raw: CreateUserInput)
    requires raw.email.Some? && f.isEmail(raw.email.value)
    ensures ParseCreateUser(f, raw).Ok? <==>
      raw.username.Some? && UsernameMin <= |raw.username.value| <= UsernameMax
      && raw.password.Some? && PasswordMin <= |raw.password.value| <= PasswordMax
  {
  }

  /** The project limits are exactly the bounds project creation enforces. */
  lemma ProjectLimitsAgree(raw: CreateProjectInput)
    ensures ParseCreateProject(raw).Ok? <==>
      raw.name.Some? && 1 <= |raw.name.value| <= ProjectNameMax
      && (raw.description.None? || |raw.description.value| <= ProjectDescriptionMax)
      && (raw.githubRepo.None? || |raw.githubRepo.value| <= ProjectNameMax)
  {
  }

  /** LOG_MESSAGE_MAX is not enforced: the log schema accepts a message of any length from 1 up. */
  lemma LogMessageMaxNotEnforced(f: Formats, raw: CreateLogInput)
    requires raw.message.Some? && |raw.message.value| == LogMessageMax + 1
    requires raw.projectId.Some? && f.isUuid(raw.projectId.value) && raw.runId.None? && raw.level.None?
    requires LengthAtLeast(raw.source, 1)
    ensures ParseCreateLog(f, raw).Ok?
  {
  }
}
