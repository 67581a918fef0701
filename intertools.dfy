/**
 * The InterTools server: the `/chat.js` parameter check, the ingestion of a
 * captured page fragment as a log row (`POST /api/messages`) and the listing of a
 * project's messages (`GET /api/messages/:projectId`).
 */
module InterTools {
  import opened Wrappers
  import opened Js
  import opened Schemas
  import opened Api
  import opened Supabase
  import Domain

  // ---------------------------------------------------------------------------
  // GET /chat.js

  const MissingProjectText := "// Error: projectId parameter is required"

  /** The reply to `/chat.js`: the 400 text, or the script served for a project and theme. */
  datatype ChatScriptReply =
    | MissingProject(status: nat, text: string)
    | Script(projectId: string, theme: string, contentType: string, cacheControl: string)

  /**
   * `/chat.js`: a missing or empty `projectId` is a 400; otherwise the script is
   * served for that project, with `theme` defaulting to "light" only when absent.
   */
  function ChatScript(projectId: Option<string>, theme: Option<string>): (r: ChatScriptReply)
    ensures r.MissingProject? <==> projectId.None? || projectId.value == ""
    ensures r.MissingProject? ==> r.status == 400 && r.text == MissingProjectText
    ensures r.Script? ==> r.projectId == projectId.value
    ensures r.Script? && theme.None? ==> r.theme == "light"
    ensures r.Script? && theme.Some? ==> r.theme == theme.value
    ensures r.Script? ==> r.contentType == "application/javascript" && r.cacheControl == "public, max-age=3600"
  {
    var t := theme.GetOr("light");
    if projectId.None? || projectId.value == "" then MissingProject(400, MissingProjectText)
    else Script(projectId.value, t, "application/javascript", "public, max-age=3600")
  }

  // ---------------------------------------------------------------------------
  // The stored row

  const PreviewPrefix := "InterTools message: "
  const PreviewLength := 200
  const Ellipsis := "..."

  /**
   * The stored message: the prefix, the first 200 characters of the snippet, and
   * "..." exactly when something was cut off.
   */
  function PreviewMessage(snippet: string): (r: string)
    ensures |r| <= |PreviewPrefix| + PreviewLength + |Ellipsis|
    ensures |r| >= |PreviewPrefix| && r[..|PreviewPrefix|] == PreviewPrefix
    ensures |snippet| <= PreviewLength ==> r == PreviewPrefix + snippet
    ensures |snippet| > PreviewLength ==>
      |r| == 223 && r[|PreviewPrefix|..|PreviewPrefix| + PreviewLength] == snippet[..PreviewLength]
      && r[|PreviewPrefix| + PreviewLength..] == Ellipsis
  {
    var shown := if |snippet| <= PreviewLength then snippet else snippet[..PreviewLength];
    var tail := if |snippet| > PreviewLength then Ellipsis else "";
    PreviewPrefix + shown + tail
  }

  /** A snippet of at most 200 characters can be read back from its message. */
  lemma PreviewMessageShortInjective(a: string, b: string)
    requires |a| <= PreviewLength && |b| <= PreviewLength
    requires PreviewMessage(a) == PreviewMessage(b)
    ensures a == b
  {
    assert a == PreviewMessage(a)[|PreviewPrefix|..];
    assert b == PreviewMessage(b)[|PreviewPrefix|..];
  }

  /** Beyond 200 characters the message forgets the rest; the whole snippet survives only in the metadata. */
  lemma PreviewMessageForgetsTail(a: string, b: string)
    requires |a| > PreviewLength && |b| > PreviewLength && a[..PreviewLength] == b[..PreviewLength]
    ensures PreviewMessage(a) == PreviewMessage(b)
  {
  }

  /**
   * The stored metadata: `url`, `source` and `fullContent` (the whole snippet),
   * then the caller's metadata spread over them, so a caller key wins.
   */
  function StoredMetadata(m: InterToolsMessage): (r: Record)
    ensures r.Keys == {"url", "source", "fullContent"} + m.metadata.Keys
    ensures forall k | k in m.metadata :: r[k] == m.metadata[k]
    ensures "url" !in m.metadata ==> r["url"] == JStr(m.url)
    ensures "source" !in m.metadata ==> r["source"] == JStr("intertools")
    ensures "fullContent" !in m.metadata ==> r["fullContent"] == JStr(m.htmlSnippet)
  {
    map["url" := JStr(m.url), "source" := JStr("intertools"), "fullContent" := JStr(m.htmlSnippet)] + m.metadata
  }

  /** A row of the `logs` table. */
  datatype LogRow = LogRow(id: string, projectId: string, runId: Option<string>, level: Domain.LogLevel,
                           message: string, metadata: Record, source: string, timestamp: int, createdAt: int)

  /** The row an accepted message becomes; `id` and `now` are the database's. */
  function IngestedRow(m: InterToolsMessage, id: string, now: int): (row: LogRow)
    ensures row.level == Domain.Info && row.source == "intertools" && row.projectId == m.projectId
    ensures row.runId.None? && row.id == id
    ensures row.message == PreviewMessage(m.htmlSnippet) && row.metadata == StoredMetadata(m)
  {
    LogRow(id, m.projectId, None, Domain.Info, PreviewMessage(m.htmlSnippet), StoredMetadata(m), "intertools", now, now)
  }

  // ---------------------------------------------------------------------------
  // Replies

  /** A message as the listing shows it. */
  datatype MessageView = MessageView(id: string, message: string, metadata: Record, timestamp: int, createdAt: int)

  datatype ReplyData = Saved(id: string, note: string) | Messages(items: seq<MessageView>)

  /** A JSON reply: the status, the envelope and, for validation failures, the issues. */
  datatype Reply = Reply(status: nat, body: ApiResponse<ReplyData>, details: Option<seq<Issue>>)

  function Failure(status: nat, error: string): (r: Reply)
    ensures r.status == status && !r.body.success && r.body.error == Some(error) && r.details.None?
  {
    Reply(status, Error(error, None), None)
  }

  /** What the database made of an insert: the row stored, an error reported, or the call itself failing. */
  datatype InsertOutcome = Accepted | Refused(error: PgError) | Unreachable

  /** The primary-key violation the database reports for an id already in the table. */
  const DuplicateIdError := PgError("duplicate key value violates unique constraint \"logs_pkey\"")

  predicate HasId(logs: seq<LogRow>, id: string) {
    exists r :: r in logs && r.id == id
  }

  // ---------------------------------------------------------------------------
  // GET /api/messages/:projectId

  const DefaultLimit := 50

  /** `parseInt(req.query.limit) || 50`: an absent, unreadable or zero limit is 50; anything else, even negative, is kept. */
  function LimitFor(query: Option<string>): (n: int)
    ensures n != 0
    ensures query.None? ==> n == DefaultLimit
    ensures query.Some? && (ParseInt(query.value).None? || ParseInt(query.value).value == 0) ==> n == DefaultLimit
    ensures query.Some? && ParseInt(query.value).Some? && ParseInt(query.value).value != 0 ==>
      n == ParseInt(query.value).value
  {
    if query.None? then DefaultLimit
    else match ParseInt(query.value)
      case None => DefaultLimit
      case Some(v) => if v == 0 then DefaultLimit else v
  }

  /** A positive limit written in decimal is taken as it is; a negative one passes through. */
  lemma LimitForRendered(n: nat)
    requires n > 0
    ensures LimitFor(Some(NatToString(n))) == n
    ensures LimitFor(Some("-" + NatToString(n))) == -(n as int)
  {
    ParseIntOfNatToString(n);
    ParseIntOfNegated(n);
  }

  /** "0" and text without digits both fall back to 50. */
  lemma LimitForFallsBack(text: string)
    requires forall i :: 0 <= i < |text| ==> !IsDigit(text[i])
    ensures LimitFor(Some(text)) == DefaultLimit
    ensures LimitFor(Some("0")) == DefaultLimit
  {
    ParseIntNoDigits(text);
    ParseIntOfNatToString(0);
  }

  function ViewOf(row: LogRow): MessageView {
    MessageView(row.id, row.message, row.metadata, row.timestamp, row.createdAt)
  }

  /** `data.map(log => ({ id, message, metadata, timestamp, createdAt }))`. */
  function Views(rows: seq<LogRow>): (r: seq<MessageView>)
    ensures |r| == |rows|
    ensures forall i :: 0 <= i < |rows| ==>
      r[i].id == rows[i].id && r[i].message == rows[i].message && r[i].metadata == rows[i].metadata
      && r[i].timestamp == rows[i].timestamp && r[i].createdAt == rows[i].createdAt
  {
    if rows == [] then [] else Views(rows[..|rows| - 1]) + [ViewOf(rows[|rows| - 1])]
  }

  /** The listing distributes over a split of the rows, so their order is kept. */
  lemma {:induction false} ViewsAppend(a: seq<LogRow>, b: seq<LogRow>)
    ensures Views(a + b) == Views(a) + Views(b)
    decreases |b|
  {
    if b != [] {
      var b' := b[..|b| - 1];
      assert (a + b)[..|a + b| - 1] == a + b';
      ViewsAppend(a, b');
    }
  }

  /** The reply to the listing, given what the query returned: the rows' views, or a 500 on any error. */
  function MessagesReply(fetched: Result<seq<LogRow>, PgError>): (r: Reply)
    ensures fetched.Err? ==> r == Failure(500, "Internal server error")
    ensures fetched.Ok? ==>
      r.status == 200 && r.body == Success(Messages(Views(fetched.value)), None)
      && |r.body.data.value.items| == |fetched.value|
  {
    match fetched
    case Err(_) => Failure(500, "Internal server error")
    case Ok(rows) => Reply(200, Success(Messages(Views(rows)), None), None)
  }

  // ---------------------------------------------------------------------------
  // POST /api/messages

  class InterToolsServer {
    /** The `logs` table. */
    var logs: seq<LogRow>

    ghost predicate Valid()
      reads this
    {
      forall i, j | 0 <= i < j < |logs| :: logs[i].id != logs[j].id
    }

    constructor()
      ensures Valid() && logs == []
    {
      logs := [];
    }

    /**
     * `POST /api/messages`: validation first (400 with the issues), then one insert
     * of the built row; a reported insert error is a 500 "Failed to save message",
     * any other failure a 500 "Internal server error"; nothing is stored on failure.
     */
    method PostMessage(f: Formats, raw: InterToolsMessageInput, newId: string, now: int, db: InsertOutcome)
      returns (r: Reply)
      requires Valid()
      modifies this
      ensures Valid()
      ensures r.status != 200 ==> logs == old(logs)
      ensures ParseInterToolsMessage(f, raw).Err? ==>
        r == Reply(400, Error("Invalid request data", None), Some(ParseInterToolsMessage(f, raw).error))
      ensures ParseInterToolsMessage(f, raw).Ok? && db.Unreachable? ==> r == Failure(500, "Internal server error")
      ensures ParseInterToolsMessage(f, raw).Ok? && (db.Refused? || (db.Accepted? && HasId(old(logs), newId))) ==>
        r == Failure(500, "Failed to save message")
      ensures ParseInterToolsMessage(f, raw).Ok? && db.Accepted? && !HasId(old(logs), newId) ==>
        && logs == old(logs) + [IngestedRow(ParseInterToolsMessage(f, raw).value, newId, now)]
        && r == Reply(200, Success(Saved(newId, "Message saved successfully"), None), None)
    {
      var parsed := ParseInterToolsMessage(f, raw);
      if parsed.Err? {
        return Reply(400, Error("Invalid request data", None), Some(parsed.error));
      }
      var m := parsed.value;
      var row := IngestedRow(m, newId, now);
      if db.Unreachable? {
        return Failure(500, "Internal server error");
      }
      var error := if db.Refused? then Some(db.error) else if HasId(logs, newId) then Some(DuplicateIdError) else None;
      if error.Some? {
        return Failure(500, "Failed to save message");
      }
      logs := logs + [row];
      r := Reply(200, Success(Saved(row.id, "Message saved successfully"), None), None);
    }
  }
}
