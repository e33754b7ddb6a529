/**
 * ApprovalOrchestrator: whether an order needs a human approval, and the approval request
 * built for it.
 */
module Orchestrator {
  import opened Wrappers
  import opened Clock
  import opened Ids
  import opened Text
  import opened ApprovalModels
  import opened AgentModels
  import EM = ExecutionModels
  import opened Store

  /** `int(config.get("approval_risk_threshold", 50))`. */
  function RiskThreshold(config: AgentConfig): int {
    config.approvalRiskThreshold.GetOr(50)
  }

  /**
   * `requires_approval`: never in mode none, always in mode always, and in risk-based mode
   * exactly when the score reaches the threshold.
   */
  predicate RequiresApproval(agent: Agent, riskScore: int): (r: bool)
    ensures agent.approvalMode == NoApproval ==> !r
    ensures agent.approvalMode == Always ==> r
    ensures agent.approvalMode == RiskBased ==> (r <==> RiskThreshold(agent.config) <= riskScore)
  {
    match agent.approvalMode
    case NoApproval => false
    case Always => true
    case RiskBased => riskScore >= RiskThreshold(agent.config)
  }

  /** With the default threshold of 50, the risk gate's scores 10 and 20 pass without approval. */
  lemma RiskBasedDefaultSkipsPassingScores(agent: Agent, score: int)
    requires agent.approvalMode == RiskBased && agent.config.approvalRiskThreshold.None?
    ensures RequiresApproval(agent, score) <==> score >= 50
  {
  }

  /** A riskier order never needs approval less: the gate is monotone in the score, in every mode. */
  lemma RequiresApprovalMonotone(agent: Agent, lower: int, higher: int)
    requires lower <= higher
    ensures RequiresApproval(agent, lower) ==> RequiresApproval(agent, higher)
  {
  }

  /**
   * `_configured_channels`: the lower-cased items of a non-empty list setting, otherwise the
   * fallback channel alone.
   */
  function ConfiguredChannels(setting: ChannelsSetting, fallback: string): (cs: set<string>)
    ensures cs != {}
    ensures !(setting.ChannelsList? && |setting.items| > 0) ==> cs == {fallback}
  {
    if setting.ChannelsList? && |setting.items| > 0 then
      var cs := set i | 0 <= i < |setting.items| :: Lower(setting.items[i]);
      assert Lower(setting.items[0]) in cs;
      cs
    else {fallback}
  }

  /** A non-empty list setting yields exactly the lower-cased items; the fallback is then not consulted. */
  lemma ConfiguredChannelsOfList(items: seq<string>, fallback: string, c: string)
    requires |items| > 0
    ensures c in ConfiguredChannels(ChannelsList(items), fallback) <==>
              exists i :: 0 <= i < |items| && Lower(items[i]) == c
  {
  }

  /** Channel names compare case-insensitively: a "Telegram" item enables the notification. */
  lemma TelegramItemNotifies(agent: Agent, channel: ApprovalChannel, i: nat)
    requires agent.config.approvalChannels.ChannelsList?
    requires i < |agent.config.approvalChannels.items|
    requires Lower(agent.config.approvalChannels.items[i]) == "telegram"
    ensures NotifiesTelegram(agent, channel)
  {
  }

  const AllowedTimeoutPolicies: set<string> := {"auto_reject", "auto_pause", "escalate"}

  /**
   * `_timeout_policy`: the lower-cased configured policy when it is one of the three,
   * otherwise auto_reject.
   */
  function TimeoutPolicyFor(config: AgentConfig): (p: string)
    ensures p in AllowedTimeoutPolicies
    ensures ParsePolicy(p).Some?
    ensures config.timeoutPolicy.Some? && Lower(config.timeoutPolicy.value) in AllowedTimeoutPolicies ==>
              p == Lower(config.timeoutPolicy.value)
    ensures config.timeoutPolicy.None? || Lower(config.timeoutPolicy.value) !in AllowedTimeoutPolicies ==>
              p == "auto_reject"
  {
    var policy := Lower(config.timeoutPolicy.GetOr("auto_reject"));
    var p := if policy in AllowedTimeoutPolicies then policy else "auto_reject";
    AllowedPolicyParses(p);
    p
  }

  /** Each of the three allowed policy names reads back as a policy. */
  lemma AllowedPolicyParses(p: string)
    requires p in AllowedTimeoutPolicies
    ensures ParsePolicy(p).Some?
  {
    if p == "auto_reject" {
      assert PolicyValue(AutoReject) == p;
    } else if p == "auto_pause" {
      assert PolicyValue(AutoPause) == p;
    } else {
      assert PolicyValue(Escalate) == p;
    }
  }

  /** The stored policy is always one the decision engine recognises, so the string fallback branch is never taken by accident. */
  lemma StoredPolicyIsRecognised(config: AgentConfig)
    ensures var p := TimeoutPolicyFor(config);
            p == PolicyValue(ParsePolicy(p).value)
  {
  }

  /** The price snapshot: `str(price)` when the price is truthy, otherwise None (0 and null alike). */
  function PriceSnapshot(price: Option<int>): (p: Option<int>)
    ensures p.Some? <==> price.Some? && price.value != 0
    ensures p.Some? ==> p == price
  {
    if price.Some? && price.value != 0 then price else None
  }

  /** `intent_payload` of the request. */
  function IntentPayload(t: EM.TradeIntent): IntentSnapshot {
    IntentSnapshot(t.symbol, EM.SideValue(t.side), t.quantity, EM.OrderTypeValue(t.orderType),
                   EM.ProductValue(t.product), PriceSnapshot(t.price))
  }

  /**
   * The row `create_request` inserts: pending and undecided, requested by the agent's owner,
   * needing at least one approval (the agent's count clamped to one), carrying the
   * normalised policy, the payload and risk snapshots, and expiring `ttl` minutes (default
   * 10) after `now`.
   */
  function BuildRequest(id: RequestId, key: nat, t: EM.TradeIntent, agent: Agent, riskScore: int,
                        channel: ApprovalChannel, now: Instant): (r: ApprovalRequest)
    ensures r.id == id && r.idempotencyKey == key && r.agentId == t.agentId
    ensures r.requestedBy == Some(agent.ownerId) && r.channel == channel
    ensures r.status == Pending && !r.isEscalated && r.escalatedAt.None?
    ensures r.decidedAt.None? && r.decidedBy.None? && r.decisionReason == ""
    ensures r.requiredApprovals >= 1 && r.requiredApprovals >= agent.requiredApprovals
    ensures agent.requiredApprovals >= 1 ==> r.requiredApprovals == agent.requiredApprovals
    ensures r.timeoutPolicy in AllowedTimeoutPolicies
    ensures r.riskScore == Some(riskScore) && r.intentPayload == Some(IntentPayload(t))
    ensures r.expiresAt == Some(now + Minutes(agent.config.approvalTtlMinutes.GetOr(10)))
  {
    NewApprovalRequest(id, key, t.agentId, Some(agent.ownerId)).(
      channel := channel,
      requiredApprovals := Max(1, agent.requiredApprovals),
      timeoutPolicy := TimeoutPolicyFor(agent.config),
      intentPayload := Some(IntentPayload(t)),
      riskScore := Some(riskScore),
      expiresAt := Some(now + Minutes(agent.config.approvalTtlMinutes.GetOr(10))))
  }

  /** Whether `create_request` enqueues the Telegram notification. */
  predicate NotifiesTelegram(agent: Agent, channel: ApprovalChannel) {
    "telegram" in ConfiguredChannels(agent.config.approvalChannels, ChannelValue(channel))
  }

  /**
   * `create_request`. The new row takes the next fresh id and the idempotency key the
   * source draws with uuid4, passed in as `key` and required to be unused; the
   * notification job is enqueued once with that id exactly when "telegram" is among the
   * configured channels.
   */
  method CreateRequest(db: Database, t: EM.TradeIntent, riskScore: int, channel: ApprovalChannel,
                       key: nat, now: Instant)
    returns (id: RequestId, notified: bool)
    requires db.ApprovalsValid() && t.agentId in db.agents
    requires forall k :: k in db.requests ==> db.requests[k].idempotencyKey != key
    modifies db`requests, db`nextRequestId, db`notifyQueue
    ensures db.ApprovalsValid()
    ensures id == old(db.nextRequestId) && id !in old(db.requests) && db.nextRequestId == id + 1
    ensures db.requests == old(db.requests)[id := BuildRequest(id, key, t, db.agents[t.agentId], riskScore, channel, now)]
    ensures notified <==> NotifiesTelegram(db.agents[t.agentId], channel)
    ensures db.notifyQueue == old(db.notifyQueue) + (if notified then [id] else [])
  {
    id := db.nextRequestId;
    var agent := db.agents[t.agentId];
    var r := BuildRequest(id, key, t, agent, riskScore, channel, now);
    notified := NotifiesTelegram(agent, channel);
    InsertRequest(db, r, notified);
  }
}
