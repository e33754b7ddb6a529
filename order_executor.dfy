/**
 * TradeIntentExecutor.process: the risk gate, then either the approval gate or placement,
 * in paper mode as a simulation and in live mode through the broker adapter.
 */
module OrderExecutor {
  import opened Wrappers
  import opened Clock
  import opened Ids
  import opened Text
  import opened RiskPolicyEngine
  import opened ApprovalModels
  import opened AgentModels
  import EM = ExecutionModels
  import opened Store
  import opened Orchestrator

  /**
   * What `KiteAdapter.place_order` returned: the `order_id` entry of the response, if any,
   * and the response itself as opaque JSON. A raised exception is an `Err` of its message.
   */
  datatype AdapterReply = AdapterReply(orderId: Option<string>, body: string)

  /** The branch `process` takes. */
  datatype Route = RiskRejected | NeedsApproval | PaperPlacement | LivePlacement

  /** The dictionary `process` returns: the new status and one detail entry. */
  datatype ReplyDetail = Reason(reason: string) | ApprovalRequestId(requestId: string) | OrderId(orderId: string)
  datatype ProcessReply = ProcessReply(status: EM.IntentStatus, detail: ReplyDetail)

  /** The risk decision for the stored intent under its agent's policy. */
  function RiskFor(t: EM.TradeIntent, agent: Agent): RiskDecision {
    Evaluate(t.notionalValue, t.symbol, agent.riskPolicy)
  }

  /**
   * The branch taken: a risk denial first, then the approval gate with the same risk score,
   * then the agent's execution mode.
   */
  function RouteFor(t: EM.TradeIntent, agent: Agent): (route: Route)
    ensures route == RiskRejected <==> !RiskFor(t, agent).approved
    ensures route == NeedsApproval <==> RiskFor(t, agent).approved && RequiresApproval(agent, RiskFor(t, agent).riskScore)
    ensures route == PaperPlacement <==>
              RiskFor(t, agent).approved && !RequiresApproval(agent, RiskFor(t, agent).riskScore) && agent.executionMode == Paper
    ensures route == LivePlacement <==>
              RiskFor(t, agent).approved && !RequiresApproval(agent, RiskFor(t, agent).riskScore) && agent.executionMode == Live
  {
    var d := RiskFor(t, agent);
    if !d.approved then RiskRejected
    else if RequiresApproval(agent, d.riskScore) then NeedsApproval
    else if agent.executionMode.Paper? then PaperPlacement
    else LivePlacement
  }

  /** The order id of a simulated placement: `paper-{intent.id}`. */
  function PaperOrderId(id: IntentId): string {
    "paper-" + NatToString(id)
  }

  /** Distinct intents get distinct simulated order ids. */
  lemma PaperOrderIdsDistinct(a: IntentId, b: IntentId)
    ensures PaperOrderId(a) == PaperOrderId(b) ==> a == b
  {
    if PaperOrderId(a) == PaperOrderId(b) {
      assert NatToString(a) == PaperOrderId(a)[6..];
      assert NatToString(b) == PaperOrderId(b)[6..];
      NatToStringInjective(a, b);
    }
  }

  /**
   * The intent as `process` leaves it, given the id the approval request would get, the
   * adapter's answer and the clock reading; `Err` when the adapter raised, which `process`
   * lets through before anything is saved.
   */
  function Executed(t: EM.TradeIntent, agent: Agent, requestId: RequestId,
                    placement: Result<AdapterReply, string>, now: Instant): Result<EM.TradeIntent, string> {
    match RouteFor(t, agent)
    case RiskRejected => Ok(t.(status := EM.Rejected, failureReason := RiskFor(t, agent).reason))
    case NeedsApproval => Ok(t.(approvalRequest := Some(requestId), status := EM.PendingApproval))
    case PaperPlacement =>
      Ok(t.(status := EM.Placed, brokerOrderId := PaperOrderId(t.id), brokerResponse := EM.PaperResponse,
            placedAt := Some(now)))
    case LivePlacement =>
      if placement.Err? then Err(placement.error)
      else Ok(t.(status := EM.Placed, brokerOrderId := placement.value.orderId.GetOr(""),
                 brokerResponse := EM.AdapterResponse(placement.value.body), placedAt := Some(now)))
  }

  /**
   * Exactly one branch runs and it decides the status: rejected exactly on a risk denial
   * (with the risk reason), pending approval exactly when approval is needed (linked to the
   * new request), placed otherwise. `failed` is never set, and only a live placement whose
   * adapter raised yields no intent.
   */
  lemma ExecutedStatus(t: EM.TradeIntent, agent: Agent, requestId: RequestId,
                       placement: Result<AdapterReply, string>, now: Instant)
    ensures var out := Executed(t, agent, requestId, placement, now);
            && (out.Err? <==> RouteFor(t, agent) == LivePlacement && placement.Err?)
            && (out.Ok? ==> out.value.status in {EM.Rejected, EM.PendingApproval, EM.Placed})
            && (out.Ok? ==> (out.value.status == EM.Rejected <==> !RiskFor(t, agent).approved))
            && (out.Ok? ==> (out.value.status == EM.PendingApproval <==> RouteFor(t, agent) == NeedsApproval))
            && (out.Ok? && out.value.status == EM.Rejected ==> out.value.failureReason == RiskFor(t, agent).reason)
            && (out.Ok? && out.value.status == EM.PendingApproval ==> out.value.approvalRequest == Some(requestId))
            && (out.Ok? && out.value.status == EM.Placed ==> out.value.placedAt == Some(now))
  {
  }

  /**
   * `process` changes only the routing fields: id, agent, key, order terms, notional and
   * (outside the approval branch) the link all stay, so the saved notional is still right.
   */
  lemma ExecutedKeepsOrder(t: EM.TradeIntent, agent: Agent, requestId: RequestId,
                           placement: Result<AdapterReply, string>, now: Instant)
    requires EM.SavedNotional(t) == t.notionalValue
    ensures var out := Executed(t, agent, requestId, placement, now);
            out.Ok? ==>
              && out.value.id == t.id && out.value.agentId == t.agentId && out.value.idempotencyKey == t.idempotencyKey
              && out.value.symbol == t.symbol && out.value.side == t.side && out.value.quantity == t.quantity
              && out.value.price == t.price && out.value.notionalValue == t.notionalValue
              && EM.SavedNotional(out.value) == out.value.notionalValue
              && (RouteFor(t, agent) != NeedsApproval ==> out.value.approvalRequest == t.approvalRequest)
  {
  }

  /** With no risk policy, the default threshold and risk-based approval, an order is placed without approval. */
  lemma NoPolicyPlacesDirectly(t: EM.TradeIntent, agent: Agent)
    requires agent.riskPolicy.None? && agent.approvalMode == RiskBased && agent.config.approvalRiskThreshold.None?
    ensures RouteFor(t, agent) in {PaperPlacement, LivePlacement}
  {
  }

  /** The returned dictionary for an intent `process` has saved. */
  function ReplyFor(t: EM.TradeIntent): ProcessReply {
    ProcessReply(t.status,
      if t.status == EM.Rejected then Reason(t.failureReason)
      else if t.status == EM.PendingApproval && t.approvalRequest.Some? then ApprovalRequestId(NatToString(t.approvalRequest.value))
      else OrderId(t.brokerOrderId))
  }

  /**
   * `process(intent)`. `key` is the idempotency key the new approval request would draw,
   * `placement` the adapter's answer, `now` the clock reading. On the approval branch the
   * request is created through `CreateRequest` with the risk score of the gate and the
   * dashboard channel; no other branch touches the request table or the notify queue.
   */
  method Process(db: Database, intentId: IntentId, key: nat, placement: Result<AdapterReply, string>, now: Instant)
    returns (r: Result<ProcessReply, string>)
    requires db.ApprovalsValid() && intentId in db.intents
    requires forall k :: k in db.requests ==> db.requests[k].idempotencyKey != key
    modifies db`intents, db`requests, db`nextRequestId, db`notifyQueue
    ensures db.ApprovalsValid()
    ensures old(db.intents[intentId].agentId) in db.agents
    ensures var t := old(db.intents[intentId]);
            var out := Executed(t, db.agents[t.agentId], old(db.nextRequestId), placement, now);
            && (out.Err? ==> r == Err(out.error) && db.intents == old(db.intents))
            && (out.Ok? ==> r == Ok(ReplyFor(out.value)) && db.intents == old(db.intents)[intentId := out.value])
    ensures var t := old(db.intents[intentId]);
            var agent := db.agents[t.agentId];
            var rid := old(db.nextRequestId);
            if RouteFor(t, agent) == NeedsApproval then
              && db.requests == old(db.requests)[rid := BuildRequest(rid, key, t, agent, RiskFor(t, agent).riskScore, Dashboard, now)]
              && db.nextRequestId == rid + 1
              && db.notifyQueue == old(db.notifyQueue) + (if NotifiesTelegram(agent, Dashboard) then [rid] else [])
            else
              db.requests == old(db.requests) && db.nextRequestId == rid && db.notifyQueue == old(db.notifyQueue)
  {
    var t := db.intents[intentId];
    assert IntentRowValid(t, intentId, db.agents.Keys, db.requests.Keys);
    var agent := db.agents[t.agentId];
    var route := RouteFor(t, agent);
    var out := Executed(t, agent, db.nextRequestId, placement, now);
    ExecutedKeepsOrder(t, agent, db.nextRequestId, placement, now);
    if route == LivePlacement && placement.Err? {
      r := Err(placement.error);
      return;
    }
    if route == NeedsApproval {
      FreshRequestUnlinked(db.intents, db.agents.Keys, db.requests.Keys, db.nextRequestId);
      var rid, _ := CreateRequest(db, t, RiskFor(t, agent).riskScore, Dashboard, key, now);
      assert LinkedIntents(db.intents, rid) == {};
    }
    UpdateIntent(db, out.value);
    r := Ok(ReplyFor(out.value));
  }
}
