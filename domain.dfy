/**
 * The closed vocabularies of the data model (the `z.enum` lists shared by the
 * schemas, the row types and the constants): each is a datatype with its wire
 * name and a parser from wire names.
 */
module Domain {
  import opened Wrappers

  datatype ProjectStatus = Active | Archived | Deleted

  function ProjectStatusName(s: ProjectStatus): string {
    match s
    case Active => "active"
    case Archived => "archived"
    case Deleted => "deleted"
  }

  /** `z.enum(['active', 'archived', 'deleted'])`: accepts exactly the three wire names. */
  function ParseProjectStatus(name: string): (r: Option<ProjectStatus>)
    ensures forall s: ProjectStatus :: r == Some(s) <==> ProjectStatusName(s) == name
  {
    if name == "active" then Some(Active)
    else if name == "archived" then Some(Archived)
    else if name == "deleted" then Some(Deleted)
    else None
  }

  datatype RunStatus = Queued | Running | Completed | Failed | Cancelled

  function RunStatusName(s: RunStatus): string {
    match s
    case Queued => "queued"
    case Running => "running"
    case Completed => "completed"
    case Failed => "failed"
    case Cancelled => "cancelled"
  }

  /** The run-status enum: accepts exactly the five wire names. */
  function ParseRunStatus(name: string): (r: Option<RunStatus>)
    ensures forall s: RunStatus :: r == Some(s) <==> RunStatusName(s) == name
  {
    if name == "queued" then Some(Queued)
    else if name == "running" then Some(Running)
    else if name == "completed" then Some(Completed)
    else if name == "failed" then Some(Failed)
    else if name == "cancelled" then Some(Cancelled)
    else None
  }

  datatype TriggerType = Manual | Webhook | Scheduled

  function TriggerTypeName(t: TriggerType): string {
    match t
    case Manual => "manual"
    case Webhook => "webhook"
    case Scheduled => "scheduled"
  }

  /** `z.enum(['manual', 'webhook', 'scheduled'])`. */
  function ParseTriggerType(name: string): (r: Option<TriggerType>)
    ensures forall t: TriggerType :: r == Some(t) <==> TriggerTypeName(t) == name
  {
    if name == "manual" then Some(Manual)
    else if name == "webhook" then Some(Webhook)
    else if name == "scheduled" then Some(Scheduled)
    else None
  }

  datatype LogLevel = Debug | Info | Warn | Error

  function LogLevelName(l: LogLevel): string {
    match l
    case Debug => "debug"
    case Info => "info"
    case Warn => "warn"
    case Error => "error"
  }

  /** `z.enum(['debug', 'info', 'warn', 'error'])`. */
  function ParseLogLevel(name: string): (r: Option<LogLevel>)
    ensures forall l: LogLevel :: r == Some(l) <==> LogLevelName(l) == name
  {
    if name == "debug" then Some(Debug)
    else if name == "info" then Some(Info)
    else if name == "warn" then Some(Warn)
    else if name == "error" then Some(Error)
    else None
  }

  datatype NodeType = Tool | Llm | Decision | Data

  function NodeTypeName(t: NodeType): string {
    match t
    case Tool => "tool"
    case Llm => "llm"
    case Decision => "decision"
    case Data => "data"
  }

  /** `z.enum(['tool', 'llm', 'decision', 'data'])`. */
  function ParseNodeType(name: string): (r: Option<NodeType>)
    ensures forall t: NodeType :: r == Some(t) <==> NodeTypeName(t) == name
  {
    if name == "tool" then Some(Tool)
    else if name == "llm" then Some(Llm)
    else if name == "decision" then Some(Decision)
    else if name == "data" then Some(Data)
    else None
  }
}
