/**
 * The database the core works on: one object whose fields are the tables (a map from
 * primary key to row, or a sequence of rows in insertion order), the audit log and the two
 * job queues (`execute_intent_task.delay` and `notify_approval_request_task.delay`) as
 * outboxes. Operations in the other modules change the fields they name in `modifies`.
 */
module Store {
  import opened Wrappers
  import opened Clock
  import opened Ids
  import opened ApprovalModels
  import opened AgentModels
  import EM = ExecutionModels

  datatype AuditLevel = Info | Warning | Error

  /** An AuditEvent row; `payload` keeps the string entries the core writes. */
  datatype AuditEvent = AuditEvent(
    actor: Option<UserId>,
    eventType: string,
    level: AuditLevel,
    entityType: string,
    entityId: string,
    payload: map<string, string>,
    message: string)

  /** A UserProfile row, with the linked user. */
  datatype UserProfile = UserProfile(user: User, telegramChatId: string, updatedAt: Instant)

  class Database {
    var agents: map<AgentId, Agent>
    var profiles: seq<UserProfile>
    var requests: map<RequestId, ApprovalRequest>
    var decisions: seq<ApprovalDecision>
    var callbackEvents: seq<TelegramCallbackEvent>
    var intents: map<IntentId, EM.TradeIntent>
    var audit: seq<AuditEvent>
    var executionQueue: seq<IntentId>
    var notifyQueue: seq<RequestId>
    var nextRequestId: nat
    var runs: map<RunId, AnalysisRun>
    var nextRunId: nat
    var events: seq<AnalysisEvent>
    var endpoints: map<EndpointId, WebhookEndpoint>
    var nextEndpointId: nat
    var deliveries: map<DeliveryKey, Delivery>
    var nextDeliveryId: nat

    constructor ()
      ensures agents == map[] && profiles == [] && requests == map[] && decisions == []
      ensures callbackEvents == [] && intents == map[] && audit == []
      ensures executionQueue == [] && notifyQueue == [] && nextRequestId == 0
      ensures runs == map[] && nextRunId == 0 && events == [] && endpoints == map[] && nextEndpointId == 0
      ensures deliveries == map[] && nextDeliveryId == 0
    {
      agents, profiles, requests, decisions := map[], [], map[], [];
      callbackEvents, intents, audit := [], map[], [];
      executionQueue, notifyQueue, nextRequestId := [], [], 0;
      runs, nextRunId, events := map[], 0, [];
      endpoints, nextEndpointId := map[], 0;
      deliveries, nextDeliveryId := map[], 0;
    }

    /** The approval tables satisfy the schema's rules (see `RequestsValid`, `DecisionsValid`, `IntentsValid`). */
    ghost predicate ApprovalsValid()
      reads this`requests, this`agents, this`nextRequestId, this`decisions, this`intents, this`callbackEvents
    {
      RequestsValid(requests, agents.Keys, nextRequestId)
      && DecisionsValid(decisions, requests.Keys)
      && IntentsValid(intents, agents.Keys, requests.Keys)
      && CallbackIdsUnique(callbackEvents)
    }

    /** `TradeIntent.save()` of a new or changed intent: the notional is recomputed before the row is written. */
    method SaveIntent(t: EM.TradeIntent)
      modifies this`intents
      ensures intents == old(intents)[t.id := t.(notionalValue := EM.SavedNotional(t))]
      ensures EM.SavedNotional(intents[t.id]) == intents[t.id].notionalValue
    {
      EM.SaveIsIdempotent(t);
      intents := intents[t.id := t.(notionalValue := EM.SavedNotional(t))];
    }
  }

  /**
   * Every request is stored under its own id, below the next fresh id, belongs to a
   * stored agent, and holds its own idempotency key.
   */
  ghost predicate RequestsValid(requests: map<RequestId, ApprovalRequest>, agentIds: set<AgentId>, nextId: nat) {
    (forall id :: id in requests ==>
      requests[id].id == id && id < nextId && requests[id].agentId in agentIds)
    && (forall a, b :: a in requests && b in requests && a != b ==>
          requests[a].idempotencyKey != requests[b].idempotencyKey)
  }

  /** Replacing a request by one with the same id, agent and key keeps the table valid. */
  lemma ReplaceRequestKeepsValid(requests: map<RequestId, ApprovalRequest>, agentIds: set<AgentId>, nextId: nat,
                                 id: RequestId, r: ApprovalRequest)
    requires RequestsValid(requests, agentIds, nextId) && id in requests
    requires r.id == id && r.agentId == requests[id].agentId && r.idempotencyKey == requests[id].idempotencyKey
    ensures RequestsValid(requests[id := r], agentIds, nextId)
    ensures requests[id := r].Keys == requests.Keys
  {
  }

  /**
   * Inserting a request under the next fresh id, for a stored agent and with an unused
   * idempotency key, keeps the request table valid, and the decision and intent tables,
   * whose references only gain a target, stay valid too.
   */
  lemma InsertRequestKeepsValid(requests: map<RequestId, ApprovalRequest>, agentIds: set<AgentId>, nextId: nat,
                                decisions: seq<ApprovalDecision>, intents: map<IntentId, EM.TradeIntent>,
                                r: ApprovalRequest)
    requires RequestsValid(requests, agentIds, nextId)
    requires DecisionsValid(decisions, requests.Keys) && IntentsValid(intents, agentIds, requests.Keys)
    requires r.id == nextId && r.agentId in agentIds
    requires forall k :: k in requests ==> requests[k].idempotencyKey != r.idempotencyKey
    ensures RequestsValid(requests[nextId := r], agentIds, nextId + 1)
    ensures DecisionsValid(decisions, requests[nextId := r].Keys)
    ensures IntentsValid(intents, agentIds, requests[nextId := r].Keys)
  {
    var keys := requests[nextId := r].Keys;
    assert requests.Keys <= keys;
    forall id | id in intents ensures IntentRowValid(intents[id], id, agentIds, keys) {
      assert IntentRowValid(intents[id], id, agentIds, requests.Keys);
    }
  }

  /**
   * `ApprovalRequest.objects.create`: the row is stored under the next fresh id, and when
   * `notify` holds the notification job for it is enqueued.
   */
  method InsertRequest(db: Database, r: ApprovalRequest, notify: bool)
    requires db.ApprovalsValid()
    requires r.id == db.nextRequestId && r.agentId in db.agents
    requires forall k :: k in db.requests ==> db.requests[k].idempotencyKey != r.idempotencyKey
    modifies db`requests, db`nextRequestId, db`notifyQueue
    ensures db.ApprovalsValid()
    ensures db.requests == old(db.requests)[r.id := r] && db.nextRequestId == old(db.nextRequestId) + 1
    ensures db.notifyQueue == old(db.notifyQueue) + (if notify then [r.id] else [])
  {
    InsertRequestKeepsValid(db.requests, db.agents.Keys, db.nextRequestId, db.decisions, db.intents, r);
    db.requests, db.nextRequestId := db.requests[r.id := r], db.nextRequestId + 1;
    db.notifyQueue := db.notifyQueue + (if notify then [r.id] else []);
  }

  /** `ApprovalDecision.objects.create` of a row that keeps one decision per user and request. */
  method AppendDecision(db: Database, d: ApprovalDecision)
    requires db.ApprovalsValid() && d.requestId in db.requests && (d.decision == Approve ==> d.actor.Some?)
    requires d.actor.None? || !HasDecisionBy(db.decisions, d.requestId, d.actor.value)
    modifies db`decisions
    ensures db.ApprovalsValid()
    ensures db.decisions == old(db.decisions) + [d]
  {
    AppendDecisionKeepsValid(db.decisions, db.requests.Keys, d);
    db.decisions := db.decisions + [d];
  }

  /** `request.save()` of a request that keeps its id, agent and idempotency key. */
  method ReplaceRequest(db: Database, r: ApprovalRequest)
    requires db.ApprovalsValid() && r.id in db.requests
    requires r.agentId == db.requests[r.id].agentId && r.idempotencyKey == db.requests[r.id].idempotencyKey
    modifies db`requests
    ensures db.ApprovalsValid()
    ensures db.requests == old(db.requests)[r.id := r]
  {
    ReplaceRequestKeepsValid(db.requests, db.agents.Keys, db.nextRequestId, r.id, r);
    db.requests := db.requests[r.id := r];
  }

  /** `agent.save()` of a stored agent. */
  method ReplaceAgent(db: Database, id: AgentId, a: Agent)
    requires db.ApprovalsValid() && id in db.agents
    modifies db`agents
    ensures db.ApprovalsValid()
    ensures db.agents == old(db.agents)[id := a]
  {
    db.agents := db.agents[id := a];
    assert db.agents.Keys == old(db.agents).Keys;
  }

  /** The linked-intent update of the approval flow, with the whole invariant kept. */
  method UpdateLinkedIntentValid(db: Database, requestId: RequestId, status: EM.IntentStatus, reason: string)
    returns (linked: Option<IntentId>)
    requires db.ApprovalsValid()
    modifies db`intents
    ensures db.ApprovalsValid()
    ensures db.intents == UpdateLinked(old(db.intents), requestId, status, reason)
    ensures linked.None? <==> LinkedIntents(old(db.intents), requestId) == {}
    ensures linked.Some? ==> LinkedIntents(old(db.intents), requestId) == {linked.value}
  {
    linked := UpdateLinkedIntent(db, requestId, status, reason);
  }

  /** `TelegramCallbackEvent.objects.create` of a row whose callback id is not stored yet. */
  method AppendCallbackEvent(db: Database, e: TelegramCallbackEvent)
    requires db.ApprovalsValid() && !HasCallbackId(db.callbackEvents, e.callbackQueryId)
    modifies db`callbackEvents
    ensures db.ApprovalsValid()
    ensures db.callbackEvents == old(db.callbackEvents) + [e]
  {
    AppendCallbackKeepsUnique(db.callbackEvents, e);
    db.callbackEvents := db.callbackEvents + [e];
  }

  /** `log_audit_event` for each row, in order: the audit log only grows. */
  method AppendAudit(db: Database, rows: seq<AuditEvent>)
    modifies db`audit
    ensures old(db.ApprovalsValid()) ==> db.ApprovalsValid()
    ensures db.audit == old(db.audit) + rows
  {
    db.audit := db.audit + rows;
  }

  /**
   * Decision rows point at stored requests, satisfy the conditional unique constraint, and
   * every approve row has an acting user (the system only ever records rejects, and a
   * missing actor is never allowed to decide).
   */
  ghost predicate DecisionsValid(decisions: seq<ApprovalDecision>, requestIds: set<RequestId>) {
    DecisionsUnique(decisions)
    && (forall i :: 0 <= i < |decisions| ==> decisions[i].requestId in requestIds)
    && ApprovesHaveActors(decisions)
  }

  /** Adding a row for a stored request that keeps the constraint keeps the table valid. */
  lemma AppendDecisionKeepsValid(decisions: seq<ApprovalDecision>, requestIds: set<RequestId>, d: ApprovalDecision)
    requires DecisionsValid(decisions, requestIds)
    requires d.requestId in requestIds && (d.decision == Approve ==> d.actor.Some?)
    requires d.actor.None? || !HasDecisionBy(decisions, d.requestId, d.actor.value)
    ensures DecisionsValid(decisions + [d], requestIds)
  {
    AppendKeepsUnique(decisions, d);
    var ds := decisions + [d];
    forall i | 0 <= i < |ds| ensures ds[i].requestId in requestIds && (ds[i].decision == Approve ==> ds[i].actor.Some?) {
      if i < |decisions| { assert ds[i] == decisions[i]; }
    }
  }

  /**
   * Every intent is stored under its own id, belongs to a stored agent, links to a stored
   * request if it links at all, holds its own idempotency key, carries the notional
   * `save` computes, and no two intents share a request (the one-to-one link).
   */
  ghost predicate IntentsValid(intents: map<IntentId, EM.TradeIntent>, agentIds: set<AgentId>, requestIds: set<RequestId>) {
    (forall id :: id in intents ==> IntentRowValid(intents[id], id, agentIds, requestIds))
    && IntentLinksUnique(intents)
    && (forall a, b :: a in intents && b in intents && a != b ==>
          intents[a].idempotencyKey != intents[b].idempotencyKey)
  }

  ghost predicate IntentRowValid(t: EM.TradeIntent, id: IntentId, agentIds: set<AgentId>, requestIds: set<RequestId>) {
    t.id == id && t.agentId in agentIds
    && EM.SavedNotional(t) == t.notionalValue
    && (t.approvalRequest.Some? ==> t.approvalRequest.value in requestIds)
  }

  /**
   * Rewriting one intent row keeps the table valid when the row keeps its id, agent, key and
   * saved notional, and its link either stays or points at a stored request no intent links to.
   */
  lemma ReplaceIntentKeepsValid(intents: map<IntentId, EM.TradeIntent>, agentIds: set<AgentId>,
                                requestIds: set<RequestId>, t: EM.TradeIntent)
    requires IntentsValid(intents, agentIds, requestIds) && t.id in intents
    requires t.agentId == intents[t.id].agentId && t.idempotencyKey == intents[t.id].idempotencyKey
    requires EM.SavedNotional(t) == t.notionalValue
    requires t.approvalRequest == intents[t.id].approvalRequest
             || (t.approvalRequest.Some? && t.approvalRequest.value in requestIds
                 && LinkedIntents(intents, t.approvalRequest.value) == {})
    ensures IntentsValid(intents[t.id := t], agentIds, requestIds)
  {
    var u := intents[t.id := t];
    forall a, b | a in u && b in u && a != b && u[a].approvalRequest.Some?
      ensures u[a].approvalRequest != u[b].approvalRequest
    {
      if a == t.id && t.approvalRequest != intents[t.id].approvalRequest {
        assert b !in LinkedIntents(intents, t.approvalRequest.value);
      } else if b == t.id && t.approvalRequest != intents[t.id].approvalRequest {
        assert a !in LinkedIntents(intents, t.approvalRequest.value);
      }
    }
  }

  /** `intent.save(update_fields=...)` of a row that `ReplaceIntentKeepsValid` admits. */
  method UpdateIntent(db: Database, t: EM.TradeIntent)
    requires db.ApprovalsValid() && t.id in db.intents
    requires t.agentId == db.intents[t.id].agentId && t.idempotencyKey == db.intents[t.id].idempotencyKey
    requires EM.SavedNotional(t) == t.notionalValue
    requires t.approvalRequest == db.intents[t.id].approvalRequest
             || (t.approvalRequest.Some? && t.approvalRequest.value in db.requests
                 && LinkedIntents(db.intents, t.approvalRequest.value) == {})
    modifies db`intents
    ensures db.ApprovalsValid()
    ensures db.intents == old(db.intents)[t.id := t]
  {
    ReplaceIntentKeepsValid(db.intents, db.agents.Keys, db.requests.Keys, t);
    db.intents := db.intents[t.id := t];
  }

  /** A request id the request table does not hold yet has no intent linked to it. */
  lemma FreshRequestUnlinked(intents: map<IntentId, EM.TradeIntent>, agentIds: set<AgentId>,
                             requestIds: set<RequestId>, requestId: RequestId)
    requires IntentsValid(intents, agentIds, requestIds) && requestId !in requestIds
    ensures LinkedIntents(intents, requestId) == {}
  {
    forall id | id in intents ensures intents[id].approvalRequest != Some(requestId) {
      assert IntentRowValid(intents[id], id, agentIds, requestIds);
    }
  }

  /** No two intents link to the same approval request. */
  ghost predicate IntentLinksUnique(intents: map<IntentId, EM.TradeIntent>) {
    forall a, b :: a in intents && b in intents && a != b && intents[a].approvalRequest.Some? ==>
      intents[a].approvalRequest != intents[b].approvalRequest
  }

  /** The intents whose `approval_request` is `requestId`: the reverse side of the one-to-one link. */
  function LinkedIntents(intents: map<IntentId, EM.TradeIntent>, requestId: RequestId): set<IntentId> {
    set id | id in intents && intents[id].approvalRequest == Some(requestId)
  }

  /** Under the one-to-one constraint a request has at most one linked intent. */
  lemma AtMostOneLinkedIntent(intents: map<IntentId, EM.TradeIntent>, requestId: RequestId, a: IntentId, b: IntentId)
    requires IntentLinksUnique(intents)
    requires a in LinkedIntents(intents, requestId) && b in LinkedIntents(intents, requestId)
    ensures a == b
  {
  }

  /** `approval_request.trade_intent` when present: the linked intent, looked up by search. */
  method FindLinkedIntent(db: Database, requestId: RequestId) returns (r: Option<IntentId>)
    requires IntentLinksUnique(db.intents)
    ensures r.None? <==> LinkedIntents(db.intents, requestId) == {}
    ensures r.Some? ==> LinkedIntents(db.intents, requestId) == {r.value}
  {
    if exists id :: id in db.intents && db.intents[id].approvalRequest == Some(requestId) {
      var id :| id in db.intents && db.intents[id].approvalRequest == Some(requestId);
      forall other | other in LinkedIntents(db.intents, requestId) ensures other == id {
        AtMostOneLinkedIntent(db.intents, requestId, id, other);
      }
      assert id in LinkedIntents(db.intents, requestId);
      r := Some(id);
    } else {
      assert LinkedIntents(db.intents, requestId) == {};
      r := None;
    }
  }

  /**
   * Set the status and failure reason of the intent linked to `requestId`, if any, and leave
   * every other intent as it is.
   */
  function UpdateLinked(intents: map<IntentId, EM.TradeIntent>, requestId: RequestId,
                        status: EM.IntentStatus, reason: string): map<IntentId, EM.TradeIntent> {
    map id | id in intents ::
      if intents[id].approvalRequest == Some(requestId) then intents[id].(status := status, failureReason := reason)
      else intents[id]
  }

  /** Changing only the status and failure reason of the linked intent keeps the intent table valid. */
  lemma UpdateLinkedKeepsValid(intents: map<IntentId, EM.TradeIntent>, agentIds: set<AgentId>, requestIds: set<RequestId>,
                               requestId: RequestId, status: EM.IntentStatus, reason: string)
    requires IntentsValid(intents, agentIds, requestIds)
    ensures IntentsValid(UpdateLinked(intents, requestId, status, reason), agentIds, requestIds)
  {
    var u := UpdateLinked(intents, requestId, status, reason);
    forall id | id in u
      ensures u[id].(status := intents[id].status, failureReason := intents[id].failureReason) == intents[id]
    {
    }
    forall id | id in u ensures IntentRowValid(u[id], id, agentIds, requestIds) {
      assert IntentRowValid(intents[id], id, agentIds, requestIds);
      assert EM.SavedNotional(u[id]) == EM.SavedNotional(intents[id]);
    }
    forall a, b | a in u && b in u && a != b
      ensures u[a].idempotencyKey != u[b].idempotencyKey
      ensures u[a].approvalRequest.Some? ==> u[a].approvalRequest != u[b].approvalRequest
    {
    }
  }

  /** `_approve_trade_intent` / `_reject_trade_intent`: update the linked intent in place, if there is one. */
  method UpdateLinkedIntent(db: Database, requestId: RequestId, status: EM.IntentStatus, reason: string)
    returns (linked: Option<IntentId>)
    requires IntentsValid(db.intents, db.agents.Keys, db.requests.Keys)
    modifies db`intents
    ensures db.intents == UpdateLinked(old(db.intents), requestId, status, reason)
    ensures IntentsValid(db.intents, db.agents.Keys, db.requests.Keys)
    ensures linked.None? <==> LinkedIntents(old(db.intents), requestId) == {}
    ensures linked.Some? ==> LinkedIntents(old(db.intents), requestId) == {linked.value}
  {
    ghost var target := UpdateLinked(db.intents, requestId, status, reason);
    UpdateLinkedKeepsValid(db.intents, db.agents.Keys, db.requests.Keys, requestId, status, reason);
    linked := FindLinkedIntent(db, requestId);
    UpdateLinkedShape(db.intents, requestId, status, reason, linked);
    if linked.Some? {
      var id := linked.value;
      db.intents := db.intents[id := db.intents[id].(status := status, failureReason := reason)];
    }
  }

  /** With no linked intent the update changes nothing; with one, it changes that one entry. */
  lemma UpdateLinkedShape(intents: map<IntentId, EM.TradeIntent>, requestId: RequestId,
                          status: EM.IntentStatus, reason: string, linked: Option<IntentId>)
    requires linked.None? ==> LinkedIntents(intents, requestId) == {}
    requires linked.Some? ==> LinkedIntents(intents, requestId) == {linked.value}
    ensures linked.None? ==> UpdateLinked(intents, requestId, status, reason) == intents
    ensures linked.Some? ==> linked.value in intents
    ensures linked.Some? ==>
              UpdateLinked(intents, requestId, status, reason)
              == intents[linked.value := intents[linked.value].(status := status, failureReason := reason)]
  {
    var u := UpdateLinked(intents, requestId, status, reason);
    if linked.Some? {
      var id := linked.value;
      assert id in LinkedIntents(intents, requestId);
      var v := intents[id := intents[id].(status := status, failureReason := reason)];
      forall k | k in intents ensures u[k] == v[k] {
        assert k in LinkedIntents(intents, requestId) <==> intents[k].approvalRequest == Some(requestId);
      }
      assert u == v;
    } else {
      forall k | k in intents ensures u[k] == intents[k] {
        assert k in LinkedIntents(intents, requestId) <==> intents[k].approvalRequest == Some(requestId);
      }
      assert u == intents;
    }
  }
}
