/**
 * The request handler of the compliance-scan function: configuration and
 * caller checks, the `compliance_scans` record it inserts as `running` and
 * later marks `completed`, the one call to the analysis model, and the
 * response. Everything outside the handler (environment variables, the
 * identity service, the database's error replies, the model, `JSON.parse`,
 * the clock) arrives as an `Environment` of outcomes.
 */
module ScanHandler {
  import opened Wrappers
  import opened Text
  import opened Json
  import opened ScanPrompt
  import opened ScanAnalysis

  /** A value thrown inside the handler's `try`: an `Error` with a message, or anything else. */
  datatype Thrown = ErrorObject(message: string) | OtherValue

  /** The `error` field of the 500 reply: the message of an `Error`, otherwise "Unknown error". */
  function Message(t: Thrown): string
  {
    match t
    case ErrorObject(m) => m
    case OtherValue => "Unknown error"
  }

  /** What the identity service answers for a token. */
  datatype AuthOutcome = AuthFailed(message: string) | NoUser | Authenticated(userId: string)

  /** What the model gateway call yields: a reply text, a non-2xx status, or a thrown value. */
  datatype AiOutcome = Replied(text: string) | HttpError(status: nat) | AiThrew(thrown: Thrown)

  /** The outcomes of every collaborator the handler calls, in the order it calls them. */
  datatype Environment = Environment(
    apiKey: Option<string>,
    authHeader: Option<string>,
    getUser: string -> AuthOutcome,
    insertError: Option<Thrown>,
    analyse: (string, string) -> AiOutcome,
    parse: string -> Option<Json>,
    updateError: Option<Thrown>,
    now: string)

  /** The request body; an absent `policyId` or `codeContext` is the empty string. */
  datatype ScanRequest = ScanRequest(policyId: string, scanType: string, codeContext: string)

  /** The columns the success path fills in. */
  datatype ScanResults = ScanResults(
    findings: seq<Json>,
    summary: Summary,
    recommendations: seq<Option<Json>>,
    completedAt: string)

  /** A `compliance_scans` row; `results` is None until the row is completed. */
  datatype ScanRow = ScanRow(
    id: nat,
    userId: string,
    policyId: Option<string>,
    scanType: string,
    status: string,
    results: Option<ScanResults>)

  datatype Response = Ok(scanId: nat, findings: seq<Json>, summary: Summary) | Failed(status: nat, error: string)

  /** The caller checks, in order: API key, authorization header, identity lookup on the bearer token. */
  datatype Caller = Denied(message: string) | User(userId: string)

  function Authorise(env: Environment): Caller
  {
    if env.apiKey.None? || env.apiKey.value == "" then Denied("LOVABLE_API_KEY is not configured")
    else if env.authHeader.None? || env.authHeader.value == "" then Denied("No authorization header")
    else
      match env.getUser(ReplaceFirst(env.authHeader.value, "Bearer ", ""))
      case AuthFailed(m) => Denied("Authentication failed: " + m)
      case NoUser => Denied("Unauthorized - no user session")
      case Authenticated(u) => User(u)
  }

  /** The row inserted before the analysis call. */
  function RunningRow(id: nat, userId: string, req: ScanRequest): ScanRow
  {
    ScanRow(id, userId, if req.policyId == "" then None else Some(req.policyId), req.scanType, "running", None)
  }

  /** The update of the success path. */
  function CompletedResults(a: Analysis, now: string): ScanResults
  {
    ScanResults(a.findings, a.summary, Recommendations(a.findings), now)
  }

  /** The table rows and the reply after one request. */
  datatype Outcome = Outcome(response: Response, rows: seq<ScanRow>)

  /** One request from start to reply, against the rows of the table before it. */
  function ScanOutcome(rows: seq<ScanRow>, req: ScanRequest, env: Environment): Outcome
  {
    match Authorise(env)
    case Denied(m) => Outcome(Failed(500, m), rows)
    case User(u) =>
      if env.insertError.Some? then Outcome(Failed(500, Message(env.insertError.value)), rows)
      else
        var id := |rows|;
        var running := rows + [RunningRow(id, u, req)];
        match env.analyse(SystemPrompt, UserPrompt(req.scanType, req.codeContext))
        case HttpError(st) => Outcome(Failed(500, "AI API error: " + Decimal(st)), running)
        case AiThrew(t) => Outcome(Failed(500, Message(t)), running)
        case Replied(text) =>
          var a := AnalysisOf(text, env.parse);
          if env.updateError.Some? then Outcome(Failed(500, Message(env.updateError.value)), running)
          else
            var done := running[id := running[id].(status := "completed", results := Some(CompletedResults(a, env.now)))];
            Outcome(Ok(id, a.findings, a.summary), done)
  }

  /** The `compliance_scans` table as the handler sees it; row ids are positions. */
  class ScanTable {
    var rows: seq<ScanRow>

    ghost predicate Valid()
      reads this
    {
      forall i :: 0 <= i < |rows| ==> rows[i].id == i
    }

    constructor ()
      ensures Valid() && rows == []
    {
      rows := [];
    }

    /** `insert(...).select().single()`: a new row with a fresh id. */
    method Insert(userId: string, req: ScanRequest) returns (id: nat)
      requires Valid()
      modifies this
      ensures Valid()
      ensures id == |old(rows)| && rows == old(rows) + [RunningRow(id, userId, req)]
    {
      id := |rows|;
      rows := rows + [RunningRow(id, userId, req)];
    }

    /** `update({status: 'completed', ...}).eq('id', id)`. */
    method Complete(id: nat, results: ScanResults)
      requires Valid() && id < |rows|
      modifies this
      ensures Valid()
      ensures rows == old(rows)[id := old(rows)[id].(status := "completed", results := Some(results))]
    {
      rows := rows[id := rows[id].(status := "completed", results := Some(results))];
    }
  }

  /** The handler: every step in order, leaving the `try` at the first thrown value. */
  method HandleScanRequest(table: ScanTable, req: ScanRequest, env: Environment) returns (response: Response)
    requires table.Valid()
    modifies table
    ensures table.Valid()
    ensures Outcome(response, table.rows) == ScanOutcome(old(table.rows), req, env)
  {
    var caller := Authorise(env);
    if caller.Denied? {
      return Failed(500, caller.message);
    }
    if env.insertError.Some? {
      return Failed(500, Message(env.insertError.value));
    }
    var id := table.Insert(caller.userId, req);
    var userPrompt := UserPrompt(req.scanType, req.codeContext);
    var reply := env.analyse(SystemPrompt, userPrompt);
    if reply.HttpError? {
      return Failed(500, "AI API error: " + Decimal(reply.status));
    }
    if reply.AiThrew? {
      return Failed(500, Message(reply.thrown));
    }
    var findings, summary := AnalyzeText(reply.text, env.parse);
    if env.updateError.Some? {
      return Failed(500, Message(env.updateError.value));
    }
    table.Complete(id, ScanResults(findings, summary, Recommendations(findings), env.now));
    response := Ok(id, findings, summary);
  }

  /** A missing key, a missing header or a failed identity lookup rejects the request before any row exists. */
  lemma RejectedCallerLeavesNoRow(rows: seq<ScanRow>, req: ScanRequest, env: Environment)
    requires Authorise(env).Denied?
    ensures ScanOutcome(rows, req, env) == Outcome(Failed(500, Authorise(env).message), rows)
  {
  }

  /** The header "Bearer " + token looks up exactly that token. */
  lemma BearerTokenIsLookedUp(env: Environment, token: string)
    requires env.apiKey.Some? && env.apiKey.value != ""
    requires env.authHeader == Some("Bearer " + token)
    ensures Authorise(env).User? <==> env.getUser(token).Authenticated?
    ensures Authorise(env).User? ==> Authorise(env).userId == env.getUser(token).userId
  {
    ReplacePrefixWithNothing("Bearer ", token);
  }

  /**
   * The record lifecycle: earlier rows are never touched, at most one row is
   * added, and that row is `running` or `completed`, never `failed`;
   * every error reply has status 500.
   */
  lemma LifecycleWritesRunningOrCompleted(rows: seq<ScanRow>, req: ScanRequest, env: Environment)
    ensures var o := ScanOutcome(rows, req, env);
            && (|o.rows| == |rows| || |o.rows| == |rows| + 1)
            && o.rows[..|rows|] == rows
            && (|o.rows| > |rows| ==> o.rows[|rows|].status in {"running", "completed"})
            && (o.response.Failed? ==> o.response.status == 500)
  {
    var o := ScanOutcome(rows, req, env);
    if |o.rows| > |rows| {
      assert o.rows[..|rows|] == rows;
    }
  }

  /**
   * A row ends `completed` exactly on the success reply, and then it holds
   * the reply's findings and summary, their recommendations and the time.
   */
  lemma CompletedIffSuccess(rows: seq<ScanRow>, req: ScanRequest, env: Environment)
    ensures var o := ScanOutcome(rows, req, env);
            o.response.Ok? <==> (|o.rows| > |rows| && o.rows[|rows|].status == "completed")
    ensures var o := ScanOutcome(rows, req, env);
            o.response.Ok? ==>
              && o.response.scanId == |rows|
              && o.rows[|rows|].results == Some(ScanResults(o.response.findings, o.response.summary,
                                                             Recommendations(o.response.findings), env.now))
  {
  }

  /** A model gateway error leaves the inserted row `running` and reports the status. */
  lemma AiErrorLeavesRowRunning(rows: seq<ScanRow>, req: ScanRequest, env: Environment, status: nat)
    requires Authorise(env).User? && env.insertError.None?
    requires env.analyse(SystemPrompt, UserPrompt(req.scanType, req.codeContext)) == HttpError(status)
    ensures ScanOutcome(rows, req, env)
            == Outcome(Failed(500, "AI API error: " + Decimal(status)), rows + [RunningRow(|rows|, Authorise(env).userId, req)])
  {
  }

  /** An update failure after a successful analysis also leaves the row `running`, and reports the update's error. */
  lemma UpdateErrorLeavesRowRunning(rows: seq<ScanRow>, req: ScanRequest, env: Environment)
    requires Authorise(env).User? && env.insertError.None? && env.updateError.Some?
    requires env.analyse(SystemPrompt, UserPrompt(req.scanType, req.codeContext)).Replied?
    ensures ScanOutcome(rows, req, env)
            == Outcome(Failed(500, Message(env.updateError.value)), rows + [RunningRow(|rows|, Authorise(env).userId, req)])
  {
  }
}
