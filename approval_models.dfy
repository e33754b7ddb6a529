/**
 * The approvals tables: ApprovalRequest, ApprovalDecision and TelegramCallbackEvent, their
 * enumerations and defaults, and the two uniqueness rules the schema enforces.
 */
module ApprovalModels {
  import opened Wrappers
  import opened Clock

  import opened Ids

  /** A Django user as far as the approval rules look at it. */
  datatype User = User(id: UserId, isStaff: bool, isSuperuser: bool)

  /** The acting user of a decision; `None` is the system (timeout policies). */
  type Actor = Option<User>

  function ActorId(actor: Actor): Option<UserId> {
    match actor
    case None => None
    case Some(u) => Some(u.id)
  }

  datatype ApprovalChannel = Dashboard | Admin | Telegram
  datatype ApprovalStatus = Pending | Approved | Rejected | Expired | Canceled
  datatype DecisionType = Approve | Reject
  datatype TimeoutPolicy = AutoReject | AutoPause | Escalate

  function ChannelValue(c: ApprovalChannel): string {
    match c
    case Dashboard => "dashboard"
    case Admin => "admin"
    case Telegram => "telegram"
  }

  function StatusValue(s: ApprovalStatus): string {
    match s
    case Pending => "pending"
    case Approved => "approved"
    case Rejected => "rejected"
    case Expired => "expired"
    case Canceled => "canceled"
  }

  function DecisionValue(d: DecisionType): string {
    match d
    case Approve => "approve"
    case Reject => "reject"
  }

  function PolicyValue(p: TimeoutPolicy): string {
    match p
    case AutoReject => "auto_reject"
    case AutoPause => "auto_pause"
    case Escalate => "escalate"
  }

  /** Reading a stored choice back: the inverse of the `...Value` functions. */
  function ParseChannel(s: string): (r: Option<ApprovalChannel>)
    ensures r.Some? ==> ChannelValue(r.value) == s
    ensures forall c :: ChannelValue(c) == s ==> r == Some(c)
  {
    if s == "dashboard" then Some(Dashboard)
    else if s == "admin" then Some(Admin)
    else if s == "telegram" then Some(Telegram)
    else None
  }

  function ParseDecision(s: string): (r: Option<DecisionType>)
    ensures r.Some? ==> DecisionValue(r.value) == s
    ensures forall d :: DecisionValue(d) == s ==> r == Some(d)
  {
    if s == "approve" then Some(Approve) else if s == "reject" then Some(Reject) else None
  }

  function ParsePolicy(s: string): (r: Option<TimeoutPolicy>)
    ensures r.Some? ==> PolicyValue(r.value) == s
    ensures forall p :: PolicyValue(p) == s ==> r == Some(p)
  {
    if s == "auto_reject" then Some(AutoReject)
    else if s == "auto_pause" then Some(AutoPause)
    else if s == "escalate" then Some(Escalate)
    else None
  }

  /** The symbol/side/quantity/order_type/product/price snapshot taken when a request is created. */
  datatype IntentSnapshot = IntentSnapshot(symbol: string, side: string, quantity: nat, orderType: string,
                                           product: string, price: Option<int>)

  /**
   * An ApprovalRequest row. `timeoutPolicy` is the stored string (the column does not
   * enforce its choices); `riskScore` is the whole content of risk_snapshot when set.
   * The reverse side of TradeIntent's one-to-one link is found by looking the intents up.
   */
  datatype ApprovalRequest = ApprovalRequest(
    id: RequestId,
    idempotencyKey: nat,
    agentId: AgentId,
    requestedBy: Option<UserId>,
    channel: ApprovalChannel,
    status: ApprovalStatus,
    requiredApprovals: nat,
    timeoutPolicy: string,
    isEscalated: bool,
    escalatedAt: Option<Instant>,
    intentPayload: Option<IntentSnapshot>,
    riskScore: Option<int>,
    notes: string,
    expiresAt: Option<Instant>,
    decidedAt: Option<Instant>,
    decidedBy: Option<UserId>,
    decisionReason: string)

  /** A new request with every column that has a default left at that default. */
  function NewApprovalRequest(id: RequestId, key: nat, agentId: AgentId, requestedBy: Option<UserId>): (r: ApprovalRequest)
    ensures r.status == Pending && r.channel == Dashboard && r.requiredApprovals == 1
    ensures r.timeoutPolicy == PolicyValue(AutoReject) && !r.isEscalated && r.escalatedAt.None?
    ensures r.expiresAt.None? && r.decidedAt.None? && r.decidedBy.None? && r.decisionReason == ""
    ensures r.notes == "" && r.intentPayload.None? && r.riskScore.None?
  {
    ApprovalRequest(id, key, agentId, requestedBy, Dashboard, Pending, 1, "auto_reject", false, None,
                    None, None, "", None, None, None, "")
  }

  /** The metadata JSON of a decision, reduced to the keys the core writes. */
  datatype DecisionMetadata =
    | NoMetadata
    | TimeoutMetadata(policy: string)
    | TelegramMetadata(callbackQueryId: string, telegramUserId: string)

  datatype ApprovalDecision = ApprovalDecision(
    requestId: RequestId,
    actor: Option<UserId>,
    channel: ApprovalChannel,
    decision: DecisionType,
    reason: string,
    metadata: DecisionMetadata)

  /**
   * The conditional unique constraint on ApprovalDecision: at most one row per
   * (request, actor) among the rows whose actor is not null.
   */
  ghost predicate DecisionsUnique(ds: seq<ApprovalDecision>) {
    forall i, j :: 0 <= i < j < |ds| && ds[i].actor.Some? && ds[i].requestId == ds[j].requestId ==>
      ds[i].actor != ds[j].actor
  }

  /** `approval_request.decisions.filter(actor=actor).exists()` for a non-null actor. */
  predicate HasDecisionBy(ds: seq<ApprovalDecision>, requestId: RequestId, user: UserId) {
    exists i :: 0 <= i < |ds| && ds[i].requestId == requestId && ds[i].actor == Some(user)
  }

  /**
   * Adding one row keeps the constraint exactly when its actor is null or that actor has no
   * row for the request yet: null-actor rows never collide.
   */
  lemma AppendKeepsUnique(ds: seq<ApprovalDecision>, d: ApprovalDecision)
    requires DecisionsUnique(ds)
    ensures DecisionsUnique(ds + [d]) <==> (d.actor.None? || !HasDecisionBy(ds, d.requestId, d.actor.value))
  {
    var ds' := ds + [d];
    if d.actor.Some? && HasDecisionBy(ds, d.requestId, d.actor.value) {
      var i :| 0 <= i < |ds| && ds[i].requestId == d.requestId && ds[i].actor == d.actor;
      assert ds'[i] == ds[i] && ds'[|ds|] == d;
      assert !DecisionsUnique(ds');
    } else {
      forall i, j | 0 <= i < j < |ds'| && ds'[i].actor.Some? && ds'[i].requestId == ds'[j].requestId
        ensures ds'[i].actor != ds'[j].actor
      {
        if j == |ds| {
          assert ds'[i] == ds[i];
        } else {
          assert ds'[i] == ds[i] && ds'[j] == ds[j];
        }
      }
    }
  }

  /** `approval_request.decisions.filter(decision=APPROVE).count()`. */
  function ApprovedCount(ds: seq<ApprovalDecision>, requestId: RequestId): (n: nat)
    ensures n <= |ds|
  {
    if |ds| == 0 then 0
    else ApprovedCount(ds[..|ds| - 1], requestId)
         + (if ds[|ds| - 1].requestId == requestId && ds[|ds| - 1].decision == Approve then 1 else 0)
  }

  /** One more row changes the count by one exactly when it is an approve for the request. */
  lemma ApprovedCountAppend(ds: seq<ApprovalDecision>, d: ApprovalDecision, requestId: RequestId)
    ensures ApprovedCount(ds + [d], requestId)
            == ApprovedCount(ds, requestId) + (if d.requestId == requestId && d.decision == Approve then 1 else 0)
  {
    assert (ds + [d])[..|ds|] == ds;
  }

  /** The users who cast an approve row for the request. */
  function ApprovingUsers(ds: seq<ApprovalDecision>, requestId: RequestId): set<UserId> {
    set i | 0 <= i < |ds| && ds[i].requestId == requestId && ds[i].decision == Approve && ds[i].actor.Some? :: ds[i].actor.value
  }

  /** Every approve row names its acting user. */
  ghost predicate ApprovesHaveActors(ds: seq<ApprovalDecision>) {
    forall i :: 0 <= i < |ds| && ds[i].decision == Approve ==> ds[i].actor.Some?
  }

  /**
   * Under the unique constraint, when every approve row has an actor, the approve count of a
   * request is the number of distinct users who approved it: a quorum of n needs n people.
   */
  lemma {:induction false} ApprovedCountIsApprovers(ds: seq<ApprovalDecision>, requestId: RequestId)
    requires DecisionsUnique(ds) && ApprovesHaveActors(ds)
    ensures ApprovedCount(ds, requestId) == |ApprovingUsers(ds, requestId)|
  {
    if |ds| == 0 {
      assert ApprovingUsers(ds, requestId) == {};
    } else {
      var n := |ds| - 1;
      var p, d := ds[..n], ds[n];
      assert ds == p + [d];
      assert DecisionsUnique(p) by {
        forall i, j | 0 <= i < j < |p| ensures p[i] == ds[i] && p[j] == ds[j] { }
      }
      ApprovedCountIsApprovers(p, requestId);
      ApprovingUsersAppend(p, d, requestId);
      if d.requestId == requestId && d.decision == Approve {
        assert d.actor.value !in ApprovingUsers(p, requestId) by {
          forall i | 0 <= i < |p| && p[i].requestId == requestId && p[i].actor.Some?
            ensures p[i].actor.value != d.actor.value
          {
            assert p[i] == ds[i];
          }
        }
      }
    }
  }

  lemma ApprovingUsersAppend(p: seq<ApprovalDecision>, d: ApprovalDecision, requestId: RequestId)
    ensures ApprovingUsers(p + [d], requestId)
            == ApprovingUsers(p, requestId)
               + (if d.requestId == requestId && d.decision == Approve && d.actor.Some? then {d.actor.value} else {})
  {
    var ds := p + [d];
    forall u | u in ApprovingUsers(ds, requestId)
      ensures u in ApprovingUsers(p, requestId) || (d.actor == Some(u) && d.requestId == requestId && d.decision == Approve)
    {
      var i :| 0 <= i < |ds| && ds[i].requestId == requestId && ds[i].decision == Approve
               && ds[i].actor.Some? && ds[i].actor.value == u;
      if i < |p| { assert p[i] == ds[i]; }
    }
    forall u | u in ApprovingUsers(p, requestId) ensures u in ApprovingUsers(ds, requestId) {
      var i :| 0 <= i < |p| && p[i].requestId == requestId && p[i].decision == Approve
               && p[i].actor.Some? && p[i].actor.value == u;
      assert ds[i] == p[i];
    }
    if d.requestId == requestId && d.decision == Approve && d.actor.Some? {
      assert ds[|p|] == d;
    }
  }

  /** A TelegramCallbackEvent row; `decision` is blank (None) when the data did not parse. */
  datatype TelegramCallbackEvent = TelegramCallbackEvent(
    callbackQueryId: string,
    approvalRequest: Option<RequestId>,
    telegramUserId: string,
    decision: Option<DecisionType>)

  /** `callback_query_id` is unique across the table. */
  ghost predicate CallbackIdsUnique(es: seq<TelegramCallbackEvent>) {
    forall i, j :: 0 <= i < j < |es| ==> es[i].callbackQueryId != es[j].callbackQueryId
  }

  predicate HasCallbackId(es: seq<TelegramCallbackEvent>, id: string) {
    exists i :: 0 <= i < |es| && es[i].callbackQueryId == id
  }

  /** A row whose id is not yet present keeps the ids unique. */
  lemma AppendCallbackKeepsUnique(es: seq<TelegramCallbackEvent>, e: TelegramCallbackEvent)
    requires CallbackIdsUnique(es)
    ensures CallbackIdsUnique(es + [e]) <==> !HasCallbackId(es, e.callbackQueryId)
  {
    var es' := es + [e];
    if HasCallbackId(es, e.callbackQueryId) {
      var i :| 0 <= i < |es| && es[i].callbackQueryId == e.callbackQueryId;
      assert es'[i] == es[i] && es'[|es|] == e;
    } else {
      forall i, j | 0 <= i < j < |es'| ensures es'[i].callbackQueryId != es'[j].callbackQueryId {
        assert es'[i] == es[i];
        if j < |es| { assert es'[j] == es[j]; }
      }
    }
  }
}
