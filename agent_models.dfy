/**
 * The agents tables the core reads and writes: Agent, the analysis run and its event log,
 * webhook endpoints and their delivery records. The Agent columns `approvers` and
 * `required_approvals`, and the run, event, endpoint and delivery tables, are used by the
 * core but not declared in the agents models module shown; their shape here follows how the
 * core uses them.
 */
module AgentModels {
  import opened Wrappers
  import opened Clock
  import RiskPolicyEngine
  import opened Ids

  datatype AgentStatus = Draft | Active | Paused | Archived
  datatype ExecutionMode = Paper | Live
  datatype ApprovalMode = NoApproval | Always | RiskBased

  /** The `approval_channels` config entry: missing, present but not a list, or a list of (stringified) items. */
  datatype ChannelsSetting = ChannelsAbsent | ChannelsNotAList | ChannelsList(items: seq<string>)

  /**
   * The keys of `Agent.config` the core reads. An integer entry that is absent is `None`;
   * `timeoutPolicy` is the stringified entry.
   */
  datatype AgentConfig = AgentConfig(
    approvalRiskThreshold: Option<int>,
    approvalTtlMinutes: Option<int>,
    escalationGraceMinutes: Option<int>,
    timeoutPolicy: Option<string>,
    approvalChannels: ChannelsSetting)

  function EmptyConfig(): AgentConfig {
    AgentConfig(None, None, None, None, ChannelsAbsent)
  }

  datatype Agent = Agent(
    id: AgentId,
    ownerId: UserId,
    riskPolicy: Option<RiskPolicyEngine.RiskPolicy>,
    name: string,
    slug: string,
    status: AgentStatus,
    executionMode: ExecutionMode,
    approvalMode: ApprovalMode,
    config: AgentConfig,
    isAutoEnabled: bool,
    approvers: set<UserId>,
    requiredApprovals: nat)

  /** A new agent: draft, paper mode, risk-based approval, auto-run off. */
  function NewAgent(id: AgentId, ownerId: UserId, name: string, slug: string): (a: Agent)
    ensures a.status == Draft && a.executionMode == Paper && a.approvalMode == RiskBased
    ensures !a.isAutoEnabled && a.config == EmptyConfig() && a.riskPolicy.None?
  {
    Agent(id, ownerId, None, name, slug, Draft, Paper, RiskBased, EmptyConfig(), false, {}, 1)
  }

  datatype RunStatus = RunPending | RunRunning | RunCompleted | RunFailed | RunCanceled

  function RunStatusValue(s: RunStatus): string {
    match s
    case RunPending => "pending"
    case RunRunning => "running"
    case RunCompleted => "completed"
    case RunFailed => "failed"
    case RunCanceled => "canceled"
  }

  /** An analysis run; `usage` is the opaque usage JSON. */
  datatype AnalysisRun = AnalysisRun(
    id: RunId,
    agentId: AgentId,
    requestedBy: Option<UserId>,
    status: RunStatus,
    query: string,
    model: string,
    maxSteps: int,
    stepsExecuted: int,
    usage: string,
    resultText: string,
    errorMessage: string,
    startedAt: Option<Instant>,
    completedAt: Option<Instant>)

  /**
   * The payload of an event-log row: the three the run service writes itself, and the
   * analyst's own payloads as opaque JSON.
   */
  datatype EventPayload =
    | StartedPayload(query: string, model: string, maxSteps: int)
    | CompletedPayload(stepsExecuted: int, usage: string)
    | FailedPayload(error: string)
    | AnalystPayload(json: string)

  /** One row of a run's event log. */
  datatype AnalysisEvent = AnalysisEvent(runId: RunId, sequence: nat, eventType: string, payload: EventPayload)

  /** The values of AnalysisNotificationEventType: the events a webhook endpoint may subscribe to. */
  const EventCompleted: string := "analysis_run.completed"
  const EventFailed: string := "analysis_run.failed"
  const EventCanceled: string := "analysis_run.canceled"
  const AllowedEventTypes: set<string> := {EventCompleted, EventFailed, EventCanceled}

  /** `default_analysis_notification_event_types()`: every allowed event, in declaration order. */
  function DefaultEventTypes(): (r: seq<string>)
    ensures forall e :: e in r <==> e in AllowedEventTypes
  {
    [EventCompleted, EventFailed, EventCanceled]
  }

  /** A webhook endpoint; `headers` is `None` when the stored JSON is not an object. */
  datatype WebhookEndpoint = WebhookEndpoint(
    id: EndpointId,
    ownerId: UserId,
    name: string,
    callbackUrl: string,
    signingSecretEncrypted: string,
    isActive: bool,
    eventTypes: seq<string>,
    headers: Option<map<string, string>>)

  /** `endpoint.supports_event_type(event_type)`, taken to be membership in `event_types`. */
  predicate SupportsEventType(e: WebhookEndpoint, eventType: string) {
    eventType in e.eventTypes
  }

  /** The key of the get_or_create lookup: one delivery record per (endpoint, run, event type). */
  datatype DeliveryKey = DeliveryKey(endpointId: EndpointId, runId: RunId, eventType: string)

  datatype Delivery = Delivery(
    id: nat,
    key: DeliveryKey,
    requestPayload: string,
    maxAttempts: int,
    attemptCount: nat,
    success: bool,
    statusCode: Option<int>,
    responseBody: string,
    errorMessage: string,
    lastAttemptAt: Option<Instant>,
    nextRetryAt: Option<Instant>,
    deliveredAt: Option<Instant>)

  /** A record as get_or_create inserts it: the payload and max_attempts defaults, nothing attempted. */
  function NewDelivery(id: nat, key: DeliveryKey, payload: string, maxAttempts: int): (d: Delivery)
    ensures d.key == key && d.attemptCount == 0 && !d.success && d.maxAttempts == maxAttempts
    ensures d.nextRetryAt.None? && d.deliveredAt.None? && d.lastAttemptAt.None?
  {
    Delivery(id, key, payload, maxAttempts, 0, false, None, "", "", None, None, None)
  }
}
