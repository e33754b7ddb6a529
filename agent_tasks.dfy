/**
 * The agents' Celery tasks: the gate of `run_agent_task`, and `execute_agent_analysis_run_task`,
 * which gates on the run's status, executes it, maps the outcome to the Celery reply and
 * writes the audit row.
 */
module AgentTasks {
  import opened Wrappers
  import opened Clock
  import opened Ids
  import opened Text
  import opened AgentModels
  import opened Store
  import opened AnalysisRunService

  const NotActiveMessage: string := "Agent is not active/auto-enabled."
  const SkipReply: map<string, string> := map["status" := "skipped", "message" := NotActiveMessage]

  /** Whether `run_agent_task` hands the agent to the runtime. */
  predicate RunsAutomatically(a: Agent) {
    a.status == Active && a.isAutoEnabled
  }

  /**
   * `run_agent_task`, with `runtimeReply` the dictionary `AgentRuntime.run` returns: the
   * skip reply unless the agent is active and auto-enabled, otherwise the runtime's reply.
   */
  function RunAgentTask(a: Agent, runtimeReply: map<string, string>): (r: map<string, string>)
    ensures !RunsAutomatically(a) ==> r == SkipReply
    ensures RunsAutomatically(a) ==> r == runtimeReply
  {
    if a.status != Active || !a.isAutoEnabled then SkipReply
    else runtimeReply
  }

  /**
   * A paused, draft or stopped agent, or one with automation off, gets the skip reply, and
   * only such an agent does (for any runtime reply other than the skip reply itself).
   */
  lemma OnlyActiveAutoAgentsRun(a: Agent, runtimeReply: map<string, string>)
    requires runtimeReply != SkipReply
    ensures RunAgentTask(a, runtimeReply) == SkipReply <==> a.status != Active || !a.isAutoEnabled
  {
  }

  /** The reply of `execute_agent_analysis_run_task`. */
  datatype TaskReply =
    | TaskCanceled(runId: RunId)
    | TaskSkipped(runId: RunId, runStatus: string)
    | TaskFailed(runId: RunId, error: string)
    | TaskCompleted(runId: RunId)

  /** The reply before executing: canceled and finished runs are answered without running them. */
  function Gate(run: AnalysisRun): (r: Option<TaskReply>)
    ensures r.None? <==> run.status == RunPending || run.status == RunRunning
    ensures run.status == RunCanceled ==> r == Some(TaskCanceled(run.id))
    ensures run.status == RunCompleted || run.status == RunFailed ==> r == Some(TaskSkipped(run.id, RunStatusValue(run.status)))
  {
    if run.status == RunCanceled then Some(TaskCanceled(run.id))
    else if run.status != RunPending && run.status != RunRunning then Some(TaskSkipped(run.id, RunStatusValue(run.status)))
    else None
  }

  /**
   * The reply for what `execute` returned or raised: the cancel error and a result whose
   * status is "canceled" report canceled, the credential and agent errors report failed with
   * the message, anything else completed.
   */
  function ReplyFor(runId: RunId, result: Result<AnalystResult, Raised>): (r: TaskReply)
    ensures r.runId == runId
    ensures r.TaskCanceled? <==> (result.Err? && result.error.error == AgentCanceled)
                                 || (result.Ok? && result.value.status == Some("canceled"))
    ensures r.TaskFailed? <==> result.Err? && result.error.error != AgentCanceled
    ensures r.TaskFailed? ==> r.error == result.error.message
    ensures !r.TaskSkipped?
  {
    match result
    case Err(Raised(AgentCanceled, _)) => TaskCanceled(runId)
    case Err(e) => TaskFailed(runId, e.message)
    case Ok(res) => if res.status == Some("canceled") then TaskCanceled(runId) else TaskCompleted(runId)
  }

  /**
   * JSON rendering of an optional string the payload carries: a quoted string, or `null` when
   * the key was missing (characters that JSON escapes are not escaped here).
   */
  function JsonString(v: Option<string>): string {
    if v.Some? then "\"" + v.value + "\"" else "null"
  }

  function JsonInt(v: Option<int>): string {
    if v.None? then "null" else if v.value >= 0 then NatToString(v.value) else "-" + NatToString(-v.value)
  }

  function AuditRow(run: AnalysisRun, eventType: string, level: AuditLevel, payload: map<string, string>, message: string)
    : AuditEvent
  {
    AuditEvent(run.requestedBy, eventType, level, "agent_analysis_run", NatToString(run.id), payload, message)
  }

  /**
   * The audit rows `execute_agent_analysis_run_task` writes for an executed run: a WARNING for the missing credential,
   * an ERROR for any other agent error, nothing when the run was canceled, and an INFO row
   * with the model and step count once it completed.
   */
  function AuditFor(run: AnalysisRun, result: Result<AnalystResult, Raised>): (rows: seq<AuditEvent>)
    ensures |rows| <= 1
    ensures |rows| == 0 <==> ReplyFor(run.id, result).TaskCanceled?
    ensures |rows| == 1 ==> rows[0].actor == run.requestedBy && rows[0].entityType == "agent_analysis_run"
                            && rows[0].entityId == NatToString(run.id)
    ensures |rows| == 1 ==> (rows[0].level == Warning <==> result.Err? && result.error.error == MissingCredential)
    ensures |rows| == 1 ==> (rows[0].level == Error <==> result.Err? && result.error.error != MissingCredential)
    ensures |rows| == 1 ==> (rows[0].level == Info <==> ReplyFor(run.id, result).TaskCompleted?)
    ensures |rows| == 1 && result.Err? ==>
              rows[0].eventType == "agent_market_analysis_failed" && rows[0].payload == map["error" := result.error.message]
    ensures |rows| == 1 && result.Ok? ==> rows[0].eventType == "agent_market_analysis_completed"
  {
    match result
    case Err(Raised(AgentCanceled, _)) => []
    case Err(Raised(MissingCredential, msg)) =>
      [AuditRow(run, "agent_market_analysis_failed", Warning, map["error" := msg],
                "OpenRouter credential missing for async analysis run.")]
    case Err(e) =>
      [AuditRow(run, "agent_market_analysis_failed", Error, map["error" := e.message],
                "OpenRouter market analysis failed for async run.")]
    case Ok(res) =>
      if res.status == Some("canceled") then []
      else
        [AuditRow(run, "agent_market_analysis_completed", Info,
                  map["model" := JsonString(res.model), "steps_executed" := JsonInt(res.steps)],
                  "OpenRouter market analysis completed for async run.")]
  }

  /** What one task call leaves behind: its reply, and the run row and audit rows it wrote. */
  function TaskReplyFor(run: AnalysisRun, a: AnalystOutcome): TaskReply {
    match Gate(run)
    case Some(reply) => reply
    case None => ReplyFor(run.id, match a.ending case Ok(res) => Ok(res) case Err(e) => Err(Reraised(e)))
  }

  /**
   * `execute_agent_analysis_run_task(run_id)`, with the analyst's behaviour as `a` and the
   * two clock readings of `execute`. A gated run changes nothing; an executed one is updated
   * as `Execute` says and gets the audit rows of its outcome.
   */
  method ExecuteAnalysisRunTask(db: Database, runId: RunId, a: AnalystOutcome, startedAt: Instant, completedAt: Instant)
    returns (reply: TaskReply)
    requires runId in db.runs && db.runs[runId].id == runId
    modifies db`runs, db`events, db`audit
    ensures reply == TaskReplyFor(old(db.runs[runId]), a)
    ensures Gate(old(db.runs[runId])).Some? ==>
              db.runs == old(db.runs) && db.events == old(db.events) && db.audit == old(db.audit)
    ensures Gate(old(db.runs[runId])).None? ==>
              var run := old(db.runs[runId]);
              && db.runs == old(db.runs)[runId := RunAfter(run, a.ending, startedAt, completedAt)]
              && db.events == old(db.events) + Numbered(runId, MaxSequence(old(db.events), runId) + 1, ExecutionLog(run, a))
              && db.audit == old(db.audit)
                             + AuditFor(run, match a.ending case Ok(res) => Ok(res) case Err(e) => Err(Reraised(e)))
  {
    var run := db.runs[runId];
    var gate := Gate(run);
    if gate.Some? {
      return gate.value;
    }
    var result := Execute(db, runId, a, startedAt, completedAt);
    reply := ReplyFor(run.id, result);
    AppendAudit(db, AuditFor(run, result));
  }

  /**
   * A run `execute_agent_analysis_run_task` executes ends completed or failed, never canceled: when the analyst
   * returns a result whose status is "canceled", the reply is canceled while the stored
   * run is completed and carries the `run_completed` event.
   */
  lemma CanceledResultStoresCompletedRun(run: AnalysisRun, a: AnalystOutcome, startedAt: Instant, completedAt: Instant)
    requires run.status == RunPending || run.status == RunRunning
    requires a.ending.Ok? && a.ending.value.status == Some("canceled")
    ensures TaskReplyFor(run, a) == TaskCanceled(run.id)
    ensures RunAfter(run, a.ending, startedAt, completedAt).status == RunCompleted
    ensures ExecutionLog(run, a)[|ExecutionLog(run, a)| - 1].0 == "run_completed"
  {
    ExecutionLogShape(run, a);
  }

  /** An analyst exception other than the three known classes is reported as a failure with its message. */
  lemma UnknownErrorReportsFailure(run: AnalysisRun, a: AnalystOutcome)
    requires run.status == RunPending || run.status == RunRunning
    requires a.ending.Err? && a.ending.error.error == OtherFailure
    ensures TaskReplyFor(run, a) == TaskFailed(run.id, a.ending.error.message)
    ensures var rows := AuditFor(run, Err(Reraised(a.ending.error)));
            |rows| == 1 && rows[0].level == Error
  {
  }

  /** A second task call on a run the first one executed is answered with `skipped` and changes nothing. */
  lemma SecondCallSkips(run: AnalysisRun, a: AnalystOutcome, a': AnalystOutcome, startedAt: Instant, completedAt: Instant)
    requires Gate(run).None?
    ensures var after := RunAfter(run, a.ending, startedAt, completedAt);
            TaskReplyFor(after, a') == TaskSkipped(run.id, if a.ending.Ok? then "completed" else "failed")
  {
  }
}
