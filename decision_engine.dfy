/**
 * ApprovalDecisionService: recording a vote on an approval request (guards, veto on reject,
 * approval on quorum, stamping the linked trade intent) and the three timeout policies.
 */
module DecisionEngine {
  import opened Wrappers
  import opened Clock
  import opened Ids
  import opened Text
  import opened ApprovalModels
  import opened AgentModels
  import EM = ExecutionModels
  import opened Store

  datatype DecideError = Conflict | PermissionDenied | DuplicateVote

  function DecideErrorMessage(e: DecideError): string {
    match e
    case Conflict => "Approval request is no longer pending."
    case PermissionDenied => "You are not allowed to decide this request."
    case DuplicateVote => "You have already decided this request."
  }

  datatype DecisionOutcome = DecisionOutcome(status: ApprovalStatus, isFinal: bool, approvedCount: nat, requiredApprovals: nat)

  /**
   * `_can_user_decide`: a missing actor never; a superuser or staff member always; otherwise
   * the agent's owner or one of its approvers.
   */
  predicate CanUserDecide(actor: Actor, agent: Agent) {
    match actor
    case None => false
    case Some(u) => u.isSuperuser || u.isStaff || u.id == agent.ownerId || u.id in agent.approvers
  }

  /** Among users without staff or superuser rights, exactly the owner and the approvers may decide. */
  lemma EligibleOrdinaryUsers(agent: Agent, u: User)
    requires !u.isStaff && !u.isSuperuser
    ensures CanUserDecide(Some(u), agent) <==> u.id in {agent.ownerId} + agent.approvers
  {
  }

  /** `_actor_has_decided`: any earlier row of the same (non-null) actor, approve or reject. */
  predicate ActorHasDecided(ds: seq<ApprovalDecision>, requestId: RequestId, actor: Actor) {
    actor.Some? && HasDecisionBy(ds, requestId, actor.value.id)
  }

  /**
   * The guards of `decide`, in their order: which error it raises, if any. A request that is
   * not pending is a conflict before anything else is looked at; permission comes before the
   * duplicate check.
   */
  function GuardError(r: ApprovalRequest, agent: Agent, ds: seq<ApprovalDecision>, actor: Actor): (e: Option<DecideError>)
    ensures e == Some(Conflict) <==> r.status != Pending
    ensures e == Some(PermissionDenied) <==> r.status == Pending && !CanUserDecide(actor, agent)
    ensures e == Some(DuplicateVote) <==>
              r.status == Pending && CanUserDecide(actor, agent) && ActorHasDecided(ds, r.id, actor)
    ensures e.None? ==> actor.Some? && !HasDecisionBy(ds, r.id, actor.value.id)
  {
    if r.status != Pending then Some(Conflict)
    else if !CanUserDecide(actor, agent) then Some(PermissionDenied)
    else if ActorHasDecided(ds, r.id, actor) then Some(DuplicateVote)
    else None
  }

  /** `max(1, int(required_approvals))`: the quorum actually applied. */
  function Quorum(r: ApprovalRequest): (q: nat)
    ensures q >= 1 && q >= r.requiredApprovals
    ensures r.requiredApprovals >= 1 ==> q == r.requiredApprovals
  {
    if r.requiredApprovals >= 1 then r.requiredApprovals else 1
  }

  const RejectedByApprover: string := "Rejected by approver."

  /** `reason or "Rejected by approver."`. */
  function RejectReason(reason: string): (s: string)
    ensures s != ""
    ensures reason != "" ==> s == reason
  {
    if reason == "" then RejectedByApprover else reason
  }

  /** `_finalize_request`: the decided_* columns and the status, everything else untouched. */
  function Finalized(r: ApprovalRequest, decider: Option<UserId>, status: ApprovalStatus, reason: string, at: Instant): ApprovalRequest {
    r.(decidedBy := decider, decidedAt := Some(at), decisionReason := reason, status := status)
  }

  /**
   * The status a vote leaves: a reject finalizes as rejected whatever the count; an approve
   * finalizes as approved once the approve rows (the new one included) reach the quorum;
   * otherwise the request stays pending.
   */
  function VoteStatus(decision: DecisionType, approvedCount: nat, quorum: nat): (s: ApprovalStatus)
    ensures s == Rejected <==> decision == Reject
    ensures s == Approved <==> decision == Approve && approvedCount >= quorum
    ensures s == Pending <==> decision == Approve && approvedCount < quorum
  {
    if decision.Reject? then Rejected else if approvedCount >= quorum then Approved else Pending
  }

  /** The request after a vote that passed the guards. */
  function RequestAfterVote(r: ApprovalRequest, actor: UserId, decision: DecisionType, reason: string,
                            approvedCount: nat, at: Instant): ApprovalRequest {
    match VoteStatus(decision, approvedCount, Quorum(r))
    case Rejected => Finalized(r, Some(actor), Rejected, RejectReason(reason), at)
    case Approved => Finalized(r, Some(actor), Approved, reason, at)
    case _ => r
  }

  /** The linked intent after the vote: rejected with the reason, approved with the failure reason cleared, or untouched. */
  function IntentsAfterVote(intents: map<IntentId, EM.TradeIntent>, requestId: RequestId,
                            status: ApprovalStatus, reason: string): map<IntentId, EM.TradeIntent> {
    if status.Rejected? then UpdateLinked(intents, requestId, EM.Rejected, RejectReason(reason))
    else if status.Approved? then UpdateLinked(intents, requestId, EM.Approved, "")
    else intents
  }

  /**
   * The execution queue after a vote: one entry for the linked intent exactly when the
   * vote approved the request and an intent is linked.
   */
  ghost predicate EnqueuedAfterVote(before: seq<IntentId>, after: seq<IntentId>, linked: set<IntentId>, status: ApprovalStatus) {
    if status == Approved && linked != {} then exists id :: id in linked && after == before + [id]
    else after == before
  }

  /** The effect of a vote on the tables, as `decide` leaves them once the guards have passed. */
  ghost predicate VoteApplied(db: Database, requestId: RequestId, user: UserId, decision: DecisionType,
                              channel: ApprovalChannel, reason: string, metadata: DecisionMetadata, now: Instant,
                              outcome: DecisionOutcome,
                              requests0: map<RequestId, ApprovalRequest>, decisions0: seq<ApprovalDecision>,
                              intents0: map<IntentId, EM.TradeIntent>, queue0: seq<IntentId>)
    requires requestId in requests0
    reads db
  {
    var r := requests0[requestId];
    var count := ApprovedCount(db.decisions, requestId);
    var status := VoteStatus(decision, count, Quorum(r));
    db.decisions == decisions0 + [ApprovalDecision(requestId, Some(user), channel, decision, reason, metadata)]
    && outcome == DecisionOutcome(status, status != Pending, count, Quorum(r))
    && db.requests == requests0[requestId := RequestAfterVote(r, user, decision, reason, count, now)]
    && db.intents == IntentsAfterVote(intents0, requestId, status, reason)
    && EnqueuedAfterVote(queue0, db.executionQueue, LinkedIntents(intents0, requestId), status)
  }

  /** The part of `decide` after the guards: record the row, then finalize or wait for more approvals. */
  method RecordVote(db: Database, requestId: RequestId, user: UserId, decision: DecisionType, channel: ApprovalChannel,
                    reason: string, metadata: DecisionMetadata, now: Instant)
    returns (outcome: DecisionOutcome)
    requires db.ApprovalsValid() && requestId in db.requests
    requires !HasDecisionBy(db.decisions, requestId, user)
    modifies db`requests, db`decisions, db`intents, db`executionQueue
    ensures db.ApprovalsValid()
    ensures VoteApplied(db, requestId, user, decision, channel, reason, metadata, now, outcome,
                        old(db.requests), old(db.decisions), old(db.intents), old(db.executionQueue))
    ensures outcome.status == Approved ==>
              |ApprovingUsers(db.decisions, requestId)| >= Quorum(old(db.requests[requestId]))
  {
    var r := db.requests[requestId];
    var row := ApprovalDecision(requestId, Some(user), channel, decision, reason, metadata);
    AppendDecision(db, row);
    var quorum := Quorum(r);
    var count := ApprovedCount(db.decisions, requestId);
    ApprovedCountIsApprovers(db.decisions, requestId);
    var status := VoteStatus(decision, count, quorum);
    var r' := RequestAfterVote(r, user, decision, reason, count, now);
    ReplaceRequest(db, r');
    FinishVote(db, requestId, status, reason);
    outcome := DecisionOutcome(status, status != Pending, count, quorum);
  }

  /** `_finalize_request`'s intent update and, on approval, the execution job for the linked intent. */
  method FinishVote(db: Database, requestId: RequestId, status: ApprovalStatus, reason: string)
    requires db.ApprovalsValid()
    modifies db`intents, db`executionQueue
    ensures db.ApprovalsValid()
    ensures db.intents == IntentsAfterVote(old(db.intents), requestId, status, reason)
    ensures EnqueuedAfterVote(old(db.executionQueue), db.executionQueue, LinkedIntents(old(db.intents), requestId), status)
  {
    if status == Rejected {
      var _ := UpdateLinkedIntentValid(db, requestId, EM.Rejected, RejectReason(reason));
    } else if status == Approved {
      var linked := UpdateLinkedIntentValid(db, requestId, EM.Approved, "");
      if linked.Some? {
        db.executionQueue := db.executionQueue + [linked.value];
      }
    }
  }

  /**
   * `decide`. The request, its agent and the earlier decisions are read from `db`; `now` is
   * the clock reading `_finalize_request` takes. On a guard failure nothing changes;
   * otherwise one decision row is added and the request and linked intent move as
   * `VoteStatus` says.
   */
  method Decide(db: Database, requestId: RequestId, actor: Actor, decision: DecisionType, channel: ApprovalChannel,
                reason: string, metadata: DecisionMetadata, now: Instant)
    returns (result: Result<DecisionOutcome, DecideError>)
    requires db.ApprovalsValid() && requestId in db.requests
    modifies db`requests, db`decisions, db`intents, db`executionQueue
    ensures db.ApprovalsValid()
    ensures var r := old(db.requests[requestId]);
            var e := GuardError(r, old(db.agents[r.agentId]), old(db.decisions), actor);
            (result.Err? <==> e.Some?) && (result.Err? ==> result.error == e.value)
    ensures result.Err? ==>
              db.requests == old(db.requests) && db.decisions == old(db.decisions)
              && db.intents == old(db.intents) && db.executionQueue == old(db.executionQueue)
    ensures result.Ok? ==>
              actor.Some?
              && VoteApplied(db, requestId, actor.value.id, decision, channel, reason, metadata, now, result.value,
                             old(db.requests), old(db.decisions), old(db.intents), old(db.executionQueue))
    ensures result.Ok? && result.value.status == Approved ==>
              |ApprovingUsers(db.decisions, requestId)| >= Quorum(old(db.requests[requestId]))
  {
    var r := db.requests[requestId];
    var agent := db.agents[r.agentId];
    if r.status != Pending {
      return Err(Conflict);
    }
    if !CanUserDecide(actor, agent) {
      return Err(PermissionDenied);
    }
    var user := actor.value;
    if exists i :: 0 <= i < |db.decisions| && db.decisions[i].requestId == requestId && db.decisions[i].actor == Some(user.id) {
      return Err(DuplicateVote);
    }
    var outcome := RecordVote(db, requestId, user.id, decision, channel, reason, metadata, now);
    result := Ok(outcome);
  }

  // ----- timeout policies -----

  datatype TimeoutAction = SkippedNonPending | AutoPaused | Escalated | EscalationExpiredRejected | AutoRejected

  function TimeoutActionValue(a: TimeoutAction): string {
    match a
    case SkippedNonPending => "skipped_non_pending"
    case AutoPaused => "auto_paused"
    case Escalated => "escalated"
    case EscalationExpiredRejected => "escalation_expired_rejected"
    case AutoRejected => "auto_rejected"
  }

  /** `is_final` of the timeout outcome. */
  predicate IsFinalAction(a: TimeoutAction) {
    a == AutoPaused || a == EscalationExpiredRejected || a == AutoRejected
  }

  /**
   * Which branch `apply_timeout_policy` takes. The stored policy string is compared as it
   * is: anything other than "auto_pause" or "escalate" takes the auto-reject branch.
   */
  function TimeoutActionFor(r: ApprovalRequest): (a: TimeoutAction)
    ensures a == SkippedNonPending <==> r.status != Pending
    ensures a == AutoPaused <==> r.status == Pending && r.timeoutPolicy == "auto_pause"
    ensures a == Escalated <==> r.status == Pending && r.timeoutPolicy == "escalate" && !r.isEscalated
    ensures a == EscalationExpiredRejected <==> r.status == Pending && r.timeoutPolicy == "escalate" && r.isEscalated
    ensures a == AutoRejected <==> r.status == Pending && r.timeoutPolicy != "auto_pause" && r.timeoutPolicy != "escalate"
  {
    if r.status != Pending then SkippedNonPending
    else if r.timeoutPolicy == "auto_pause" then AutoPaused
    else if r.timeoutPolicy == "escalate" then (if r.isEscalated then EscalationExpiredRejected else Escalated)
    else AutoRejected
  }

  const ExpiredWithoutApprovals: string := "Approval request expired without required approvals."
  const AutoPausedDecisionReason: string := "Approval expired. Agent paused automatically."
  const AutoPausedReason: string := "Approval expired and agent was auto-paused."
  const EscalationExpiredReason: string := "Escalated approval expired without decision."

  /** `max(1, int(config.get("escalation_grace_minutes", 15)))`. */
  function GraceMinutes(config: AgentConfig): (g: nat)
    ensures g >= 1
    ensures config.escalationGraceMinutes.None? ==> g == 15
    ensures config.escalationGraceMinutes.Some? ==> g == Max(1, config.escalationGraceMinutes.value)
  {
    match config.escalationGraceMinutes
    case None => 15
    case Some(m) => if m >= 1 then m else 1
  }

  function EscalationNote(grace: nat): string {
    "Escalated due to timeout. Waiting for admin decision for " + NatToString(grace) + " more minutes."
  }

  /**
   * `_append_note`: a blank original is replaced by the note; otherwise the note goes on a
   * new line after the original with its trailing whitespace removed.
   */
  function AppendNote(original: string, note: string): (r: string)
    ensures |note| <= |r| && r[|r| - |note|..] == note
    ensures AllSpace(original) ==> r == note
    ensures !AllSpace(original) ==> r == RStrip(original) + "\n" + note && RStrip(original) != ""
  {
    StripEmptyIffAllSpace(original);
    if Strip(original) == "" then note
    else
      RStripNonBlank(original);
      RStrip(original) + "\n" + note
  }

  lemma RStripNonBlank(s: string)
    ensures RStrip(s) == "" ==> AllSpace(s)
  {
    if RStrip(s) == "" {
      assert s[|RStrip(s)|..] == s;
    }
  }

  /** The row `_record_system_decision` adds for a final timeout action. */
  function SystemDecision(requestId: RequestId, a: TimeoutAction): Option<ApprovalDecision> {
    match a
    case AutoPaused => Some(ApprovalDecision(requestId, None, Admin, Reject, AutoPausedDecisionReason, TimeoutMetadata("auto_pause")))
    case EscalationExpiredRejected => Some(ApprovalDecision(requestId, None, Admin, Reject, EscalationExpiredReason, TimeoutMetadata("escalate")))
    case AutoRejected => Some(ApprovalDecision(requestId, None, Admin, Reject, ExpiredWithoutApprovals, TimeoutMetadata("auto_reject")))
    case _ => None
  }

  /** The reason written to the request and its linked intent by a final timeout action. */
  function TimeoutReason(a: TimeoutAction): string {
    match a
    case AutoPaused => AutoPausedReason
    case EscalationExpiredRejected => EscalationExpiredReason
    case _ => ExpiredWithoutApprovals
  }

  /** The request after `apply_timeout_policy`; `now` is the policy time and `at` the finalize clock reading. */
  function RequestAfterTimeout(r: ApprovalRequest, grace: nat, now: Instant, at: Instant): ApprovalRequest {
    match TimeoutActionFor(r)
    case SkippedNonPending => r
    case AutoPaused => Finalized(r, None, Expired, AutoPausedReason, at)
    case Escalated =>
      r.(isEscalated := true, escalatedAt := Some(now), expiresAt := Some(now + Minutes(grace)),
         notes := AppendNote(r.notes, EscalationNote(grace)))
    case EscalationExpiredRejected => Finalized(r, None, Rejected, EscalationExpiredReason, at)
    case AutoRejected => Finalized(r, None, Rejected, ExpiredWithoutApprovals, at)
  }

  /** The agent after `apply_timeout_policy`: paused and not auto-enabled after an auto-pause. */
  function AgentAfterTimeout(agent: Agent, a: TimeoutAction): Agent {
    if a == AutoPaused then agent.(status := Paused, isAutoEnabled := false) else agent
  }

  function IntentsAfterTimeout(intents: map<IntentId, EM.TradeIntent>, requestId: RequestId, a: TimeoutAction): map<IntentId, EM.TradeIntent> {
    if IsFinalAction(a) then UpdateLinked(intents, requestId, EM.Rejected, TimeoutReason(a)) else intents
  }

  /**
   * A final timeout action leaves the request out of the pending state, so a later call is
   * skipped; a first escalation keeps it pending, moves its expiry strictly past `now`, and
   * makes the next call the final escalation reject: there is exactly one grace extension.
   */
  lemma TimeoutStepProgress(r: ApprovalRequest, grace: nat, now: Instant, at: Instant)
    requires grace >= 1
    ensures var r' := RequestAfterTimeout(r, grace, now, at);
            var a := TimeoutActionFor(r);
            (IsFinalAction(a) ==> TimeoutActionFor(r') == SkippedNonPending && r'.decidedBy.None? && r'.decidedAt == Some(at))
            && (a == Escalated ==>
                  r'.status == Pending && r'.expiresAt.Some? && r'.expiresAt.value > now
                  && TimeoutActionFor(r') == EscalationExpiredRejected)
            && (a == SkippedNonPending ==> r' == r)
  {
  }

  /** The final status each final action leaves: auto-pause expires the request, the others reject it. */
  lemma TimeoutFinalStatus(r: ApprovalRequest, grace: nat, now: Instant, at: Instant)
    ensures var a := TimeoutActionFor(r);
            var r' := RequestAfterTimeout(r, grace, now, at);
            (a == AutoPaused ==> r'.status == Expired)
            && (a == EscalationExpiredRejected || a == AutoRejected ==> r'.status == Rejected)
  {
  }

  /** Only a final action writes a decision, and only it touches the agent and the intents. */
  lemma TimeoutEffects(requestId: RequestId, a: TimeoutAction, agent: Agent, intents: map<IntentId, EM.TradeIntent>)
    ensures SystemDecision(requestId, a).Some? <==> IsFinalAction(a)
    ensures !IsFinalAction(a) ==> IntentsAfterTimeout(intents, requestId, a) == intents
    ensures a != AutoPaused ==> AgentAfterTimeout(agent, a) == agent
  {
  }

  /**
   * `apply_timeout_policy`. `currentTime` is the optional argument; `clock` is the wall
   * clock, used for `now` when no time is passed and for `decided_at`.
   */
  method ApplyTimeoutPolicy(db: Database, requestId: RequestId, currentTime: Option<Instant>, clock: Instant)
    returns (action: TimeoutAction, isFinal: bool)
    requires db.ApprovalsValid() && requestId in db.requests
    modifies db`requests, db`decisions, db`intents, db`agents
    ensures db.ApprovalsValid()
    ensures var r := old(db.requests[requestId]);
            var agent := old(db.agents[r.agentId]);
            var now := currentTime.GetOr(clock);
            action == TimeoutActionFor(r) && isFinal == IsFinalAction(action)
            && db.requests == old(db.requests)[requestId := RequestAfterTimeout(r, GraceMinutes(agent.config), now, clock)]
            && db.agents == old(db.agents)[r.agentId := AgentAfterTimeout(agent, action)]
            && db.intents == IntentsAfterTimeout(old(db.intents), requestId, action)
            && db.decisions == old(db.decisions) + (match SystemDecision(requestId, action) case Some(d) => [d] case None => [])
  {
    var r := db.requests[requestId];
    var agent := db.agents[r.agentId];
    action := TimeoutActionFor(r);
    isFinal := IsFinalAction(action);
    TimeoutEffects(requestId, action, agent, db.intents);
    if action == SkippedNonPending {
      assert db.agents[r.agentId := agent] == db.agents;
      assert db.requests[requestId := r] == db.requests;
      return;
    }
    var now := currentTime.GetOr(clock);
    var grace := GraceMinutes(agent.config);
    if action == Escalated {
      ReplaceRequest(db, RequestAfterTimeout(r, grace, now, clock));
      return;
    }
    FinalizeByTimeout(db, requestId, action, grace, now, clock);
  }

  /** The final branches of `apply_timeout_policy`: the system decision, the request, the agent and the intent. */
  method FinalizeByTimeout(db: Database, requestId: RequestId, action: TimeoutAction, grace: nat, now: Instant, clock: Instant)
    requires db.ApprovalsValid() && requestId in db.requests
    requires IsFinalAction(action) && action == TimeoutActionFor(db.requests[requestId])
    modifies db`requests, db`decisions, db`intents, db`agents
    ensures db.ApprovalsValid()
    ensures var r := old(db.requests[requestId]);
            && db.requests == old(db.requests)[requestId := RequestAfterTimeout(r, grace, now, clock)]
            && db.agents == old(db.agents)[r.agentId := AgentAfterTimeout(old(db.agents[r.agentId]), action)]
            && db.intents == UpdateLinked(old(db.intents), requestId, EM.Rejected, TimeoutReason(action))
            && db.decisions == old(db.decisions) + [SystemDecision(requestId, action).value]
  {
    var r := db.requests[requestId];
    var agent := db.agents[r.agentId];
    AppendDecision(db, SystemDecision(requestId, action).value);
    ReplaceRequest(db, RequestAfterTimeout(r, grace, now, clock));
    ReplaceAgent(db, r.agentId, AgentAfterTimeout(agent, action));
    var _ := UpdateLinkedIntentValid(db, requestId, EM.Rejected, TimeoutReason(action));
  }

  /** `default_reason_for_channel`: the Telegram defaults, and no reason for any other channel. */
  function DefaultReasonForChannel(decision: DecisionType, channel: ApprovalChannel): (s: string)
    ensures channel != Telegram <==> s == ""
    ensures channel == Telegram && decision == Approve ==> s == "Approved from Telegram."
    ensures channel == Telegram && decision == Reject ==> s == "Rejected from Telegram."
  {
    if channel.Telegram? && decision.Approve? then "Approved from Telegram."
    else if channel.Telegram? && decision.Reject? then "Rejected from Telegram."
    else ""
  }
}
