/**
 * The web app's run-creation endpoint (`POST /api/run`): it validates the body,
 * inserts a queued run into the `runs` table and answers with the run in the
 * client's field names.
 */
module RunRoute {
  import opened Wrappers
  import opened Js
  import opened Schemas
  import opened Api
  import opened Supabase
  import Domain

  /** A row of the `runs` table. */
  datatype RunRow = RunRow(id: string, projectId: string, name: string, status: Domain.RunStatus, triggerType: Domain.TriggerType,
                           config: Record, createdAt: int, updatedAt: int, startedAt: Option<int>, completedAt: Option<int>)

  /** The run as the endpoint returns it: camelCase names, and no update, start or completion times. */
  datatype RunView = RunView(id: string, projectId: string, name: string, status: string, triggerType: string,
                             config: Record, createdAt: int)

  function ViewOf(run: RunRow): (v: RunView)
    ensures v.id == run.id && v.projectId == run.projectId && v.name == run.name && v.config == run.config
    ensures v.createdAt == run.createdAt
    ensures Domain.ParseRunStatus(v.status) == Some(run.status)
    ensures Domain.ParseTriggerType(v.triggerType) == Some(run.triggerType)
  {
    RunView(run.id, run.projectId, run.name, Domain.RunStatusName(run.status), Domain.TriggerTypeName(run.triggerType), run.config, run.createdAt)
  }

  /** The row a validated request becomes: always queued, never started; `id` and `now` are the database's. */
  function QueuedRun(v: NewRun, id: string, now: int): (run: RunRow)
    ensures run.status == Domain.Queued && run.startedAt.None? && run.completedAt.None?
    ensures run.id == id && run.projectId == v.projectId && run.name == v.name
    ensures run.triggerType == v.triggerType && run.config == v.config
  {
    RunRow(id, v.projectId, v.name, Domain.Queued, v.triggerType, v.config, now, now, None, None)
  }

  /** The request body as `request.json()` sees it: unreadable, or a parsed object. */
  datatype RequestBody = Malformed | Parsed(input: CreateRunInput)

  /** What the database made of the insert: the row stored, an error reported, or the call itself failing. */
  datatype InsertOutcome = Accepted | Refused(error: PgError) | Unreachable

  /** A JSON reply: the status, the envelope and, for validation failures, the issues. */
  datatype Reply = Reply(status: nat, body: ApiResponse<RunView>, details: Option<seq<Issue>>)

  predicate HasId(runs: seq<RunRow>, id: string) {
    exists r :: r in runs && r.id == id
  }

  class RunStore {
    /** The `runs` table. */
    var runs: seq<RunRow>

    ghost predicate Valid()
      reads this
    {
      forall i, j | 0 <= i < j < |runs| :: runs[i].id != runs[j].id
    }

    constructor()
      ensures Valid() && runs == []
    {
      runs := [];
    }

    /**
     * `POST /api/run`: an unreadable body is a 500 "Internal server error", an
     * invalid one a 400 with the issues, a failed insert a 500 "Failed to create
     * run"; only a successful insert adds a row, and that row is queued.
     */
    method Create(f: Formats, body: RequestBody, newId: string, now: int, db: InsertOutcome) returns (r: Reply)
      requires Valid()
      modifies this
      ensures Valid()
      ensures r.status != 200 ==> runs == old(runs)
      ensures r.status == 200 ==> |runs| == |old(runs)| + 1 && runs[..|old(runs)|] == old(runs)
      ensures body.Malformed? ==> r == Reply(500, Error("Internal server error", None), None)
      ensures body.Parsed? && ParseCreateRun(f, body.input).Err? ==>
        r == Reply(400, Error("Invalid request data", None), Some(ParseCreateRun(f, body.input).error))
      ensures body.Parsed? && ParseCreateRun(f, body.input).Ok? && db.Unreachable? ==>
        r == Reply(500, Error("Internal server error", None), None)
      ensures body.Parsed? && ParseCreateRun(f, body.input).Ok? && (db.Refused? || (db.Accepted? && HasId(old(runs), newId))) ==>
        r == Reply(500, Error("Failed to create run", None), None)
      ensures body.Parsed? && ParseCreateRun(f, body.input).Ok? && db.Accepted? && !HasId(old(runs), newId) ==>
        var run := QueuedRun(ParseCreateRun(f, body.input).value, newId, now);
        && runs == old(runs) + [run]
        && r == Reply(200, Success(ViewOf(run), None), None)
        && r.body.data.value.status == "queued"
    {
      if body.Malformed? {
        return Reply(500, Error("Internal server error", None), None);
      }
      var parsed := ParseCreateRun(f, body.input);
      if parsed.Err? {
        return Reply(400, Error("Invalid request data", None), Some(parsed.error));
      }
      if db.Unreachable? {
        return Reply(500, Error("Internal server error", None), None);
      }
      if db.Refused? || HasId(runs, newId) {
        return Reply(500, Error("Failed to create run", None), None);
      }
      var run := QueuedRun(parsed.value, newId, now);
      runs := runs + [run];
      r := Reply(200, Success(ViewOf(run), None), None);
    }
  }
}
