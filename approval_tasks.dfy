/**
 * The expiry sweep (`process_expired_approval_requests_task`): select the expired pending
 * requests, oldest expiry first and at most a batch of them, apply the timeout policy to
 * each with one shared `now`, count the actions and write one audit row per action taken.
 */
module ApprovalTasks {
  import opened Wrappers
  import opened Clock
  import opened Ids
  import opened Text
  import opened ApprovalModels
  import opened AgentModels
  import EM = ExecutionModels
  import opened Store
  import opened DecisionEngine

  const DefaultBatchSize: nat := 200

  /** The sweep's filter: pending, with an expiry, and that expiry not after `now`. */
  predicate IsExpired(r: ApprovalRequest, now: Instant) {
    r.status == Pending && r.expiresAt.Some? && r.expiresAt.value <= now
  }

  function ExpiredIds(requests: map<RequestId, ApprovalRequest>, now: Instant): set<RequestId> {
    set k | k in requests && IsExpired(requests[k], now)
  }

  /** Every id of `s` names a stored request that is expired at `now`, and no id occurs twice. */
  ghost predicate DistinctExpired(requests: map<RequestId, ApprovalRequest>, now: Instant, s: seq<RequestId>) {
    (forall i :: 0 <= i < |s| ==> s[i] in requests && IsExpired(requests[s[i]], now))
    && (forall i, j :: 0 <= i < j < |s| ==> s[i] != s[j])
  }

  /** The ordering key of the sweep. */
  function ExpiryOf(r: ApprovalRequest): Instant {
    r.expiresAt.GetOr(0)
  }

  /**
   * `sel` is what the sweep's query returns: distinct expired requests in non-decreasing
   * expiry order, none of them expiring after an expired request left out, and as many as
   * the batch allows. Requests with equal expiry may come in any order.
   */
  ghost predicate IsSweepSelection(requests: map<RequestId, ApprovalRequest>, now: Instant, batch: nat, sel: seq<RequestId>) {
    DistinctExpired(requests, now, sel)
    && (forall i, j :: 0 <= i < j < |sel| ==> ExpiryOf(requests[sel[i]]) <= ExpiryOf(requests[sel[j]]))
    && (forall k, i :: k in ExpiredIds(requests, now) && k !in sel && 0 <= i < |sel| ==>
          ExpiryOf(requests[sel[i]]) <= ExpiryOf(requests[k]))
    && |sel| == Min(batch, |ExpiredIds(requests, now)|)
  }

  /** A non-empty set of requests has one with the earliest expiry. */
  lemma {:induction false} EarliestExists(requests: map<RequestId, ApprovalRequest>, s: set<RequestId>)
    requires s != {} && s <= requests.Keys
    ensures exists k :: k in s && forall j :: j in s ==> ExpiryOf(requests[k]) <= ExpiryOf(requests[j])
  {
    var x :| x in s;
    if s == {x} {
      assert forall j :: j in s ==> j == x;
    } else {
      EarliestExists(requests, s - {x});
      var m :| m in s - {x} && forall j :: j in s - {x} ==> ExpiryOf(requests[m]) <= ExpiryOf(requests[j]);
      if ExpiryOf(requests[x]) <= ExpiryOf(requests[m]) {
        assert forall j :: j in s ==> ExpiryOf(requests[x]) <= ExpiryOf(requests[j]);
      } else {
        assert forall j :: j in s ==> ExpiryOf(requests[m]) <= ExpiryOf(requests[j]);
      }
    }
  }

  /**
   * The selection so far: taken from the expired requests in expiry order, each at most
   * once, and none expiring after a request still to take.
   */
  ghost predicate SelectionSoFar(requests: map<RequestId, ApprovalRequest>, eligible: set<RequestId>,
                                 remaining: set<RequestId>, sel: seq<RequestId>) {
    eligible <= requests.Keys && remaining <= eligible
    && (forall i :: 0 <= i < |sel| ==> sel[i] in eligible && sel[i] !in remaining)
    && (forall k :: k in eligible && k !in remaining ==> k in sel)
    && (forall i, j :: 0 <= i < j < |sel| ==> sel[i] != sel[j])
    && (forall i, j :: 0 <= i < j < |sel| ==> ExpiryOf(requests[sel[i]]) <= ExpiryOf(requests[sel[j]]))
    && (forall k, i :: k in remaining && 0 <= i < |sel| ==> ExpiryOf(requests[sel[i]]) <= ExpiryOf(requests[k]))
    && |sel| + |remaining| == |eligible|
  }

  /** Taking a request with the earliest expiry among those left keeps the selection in order. */
  lemma TakeEarliest(requests: map<RequestId, ApprovalRequest>, eligible: set<RequestId>,
                     remaining: set<RequestId>, sel: seq<RequestId>, k: RequestId)
    requires SelectionSoFar(requests, eligible, remaining, sel)
    requires k in remaining && forall j :: j in remaining ==> ExpiryOf(requests[k]) <= ExpiryOf(requests[j])
    ensures SelectionSoFar(requests, eligible, remaining - {k}, sel + [k])
  {
    var sel' := sel + [k];
    forall i | 0 <= i < |sel'| ensures sel'[i] in eligible && sel'[i] !in remaining - {k} {
      if i < |sel| { assert sel'[i] == sel[i]; }
    }
  }

  /** A finished selection is what the query returns. */
  lemma SelectionDone(requests: map<RequestId, ApprovalRequest>, now: Instant, batch: nat,
                      remaining: set<RequestId>, sel: seq<RequestId>)
    requires SelectionSoFar(requests, ExpiredIds(requests, now), remaining, sel)
    requires |sel| <= batch && (|sel| == batch || remaining == {})
    ensures IsSweepSelection(requests, now, batch, sel)
  {
    var eligible := ExpiredIds(requests, now);
    forall k, i | k in eligible && k !in sel && 0 <= i < |sel| ensures ExpiryOf(requests[sel[i]]) <= ExpiryOf(requests[k]) {
      assert k in remaining;
    }
  }

  /**
   * The sweep's query, `filter(...).order_by("expires_at")[:batch_size]`, evaluated once
   * before the loop: repeatedly take an expired request with the earliest expiry.
   */
  method SelectExpired(requests: map<RequestId, ApprovalRequest>, now: Instant, batch: nat) returns (sel: seq<RequestId>)
    ensures IsSweepSelection(requests, now, batch, sel)
  {
    var eligible := ExpiredIds(requests, now);
    var remaining := eligible;
    sel := [];
    while |sel| < batch && remaining != {}
      invariant SelectionSoFar(requests, eligible, remaining, sel)
      invariant |sel| <= batch
      decreases |remaining|
    {
      EarliestExists(requests, remaining);
      var k :| k in remaining && forall j :: j in remaining ==> ExpiryOf(requests[k]) <= ExpiryOf(requests[j]);
      TakeEarliest(requests, eligible, remaining, sel, k);
      sel := sel + [k];
      remaining := remaining - {k};
    }
    SelectionDone(requests, now, batch, remaining, sel);
  }

  /** The tables `apply_timeout_policy` changes. */
  datatype Tables = Tables(
    requests: map<RequestId, ApprovalRequest>,
    agents: map<AgentId, Agent>,
    intents: map<IntentId, EM.TradeIntent>,
    decisions: seq<ApprovalDecision>)

  function ActionAt(tb: Tables, k: RequestId): TimeoutAction {
    if k in tb.requests then TimeoutActionFor(tb.requests[k]) else SkippedNonPending
  }

  /** The agent config a request's grace period comes from (the defaults when the agent is missing). */
  function ConfigOf(tb: Tables, r: ApprovalRequest): AgentConfig {
    if r.agentId in tb.agents then tb.agents[r.agentId].config else EmptyConfig()
  }

  /** One `apply_timeout_policy(request, current_time=now)` on the tables. */
  function TimeoutApplied(tb: Tables, k: RequestId, now: Instant, clock: Instant): Tables {
    if k !in tb.requests then tb
    else
      var r := tb.requests[k];
      var a := TimeoutActionFor(r);
      Tables(
        tb.requests[k := RequestAfterTimeout(r, GraceMinutes(ConfigOf(tb, r)), now, clock)],
        if r.agentId in tb.agents then tb.agents[r.agentId := AgentAfterTimeout(tb.agents[r.agentId], a)] else tb.agents,
        IntentsAfterTimeout(tb.intents, k, a),
        tb.decisions + (match SystemDecision(k, a) case Some(d) => [d] case None => []))
  }

  /** WARNING for the actions whose name starts with "auto_", INFO for the rest. */
  function AuditLevelFor(a: TimeoutAction): AuditLevel {
    if StartsWith(TimeoutActionValue(a), "auto_") then Warning else Info
  }

  /** The audit level is WARNING exactly for auto-pause and auto-reject; both escalation actions are INFO. */
  lemma AuditLevelRule(a: TimeoutAction)
    ensures AuditLevelFor(a) == Warning <==> a == AutoPaused || a == AutoRejected
  {
    var name := TimeoutActionValue(a);
    match a
    case AutoPaused => assert name[..5] == "auto_";
    case AutoRejected => assert name[..5] == "auto_";
    case _ => assert name[..5][0] == name[0] != 'a';
  }

  /**
   * The audit row for one outcome, none for `skipped_non_pending`; the payload holds the
   * action and the request's status and policy after the call.
   */
  function AuditRows(k: RequestId, a: TimeoutAction, requests: map<RequestId, ApprovalRequest>): seq<AuditEvent> {
    if a == SkippedNonPending || k !in requests then []
    else
      [AuditEvent(None, "approval_timeout_policy_applied", AuditLevelFor(a), "approval_request", NatToString(k),
                  map["action" := TimeoutActionValue(a), "status" := StatusValue(requests[k].status),
                      "timeout_policy" := requests[k].timeoutPolicy],
                  "Timeout policy processing executed for approval request.")]
  }

  /** The tables after the sweep has worked through `s`, every call with the same `now`. */
  function Swept(tb: Tables, s: seq<RequestId>, now: Instant, clock: Instant): Tables
    decreases |s|
  {
    if |s| == 0 then tb
    else TimeoutApplied(Swept(tb, s[..|s| - 1], now, clock), s[|s| - 1], now, clock)
  }

  /** The actions the calls return, in order. */
  function SweepActions(tb: Tables, s: seq<RequestId>, now: Instant, clock: Instant): (acts: seq<TimeoutAction>)
    ensures |acts| == |s|
    decreases |s|
  {
    if |s| == 0 then []
    else SweepActions(tb, s[..|s| - 1], now, clock) + [ActionAt(Swept(tb, s[..|s| - 1], now, clock), s[|s| - 1])]
  }

  /** The audit rows the sweep writes, in order. */
  function SweepAudits(tb: Tables, s: seq<RequestId>, now: Instant, clock: Instant): seq<AuditEvent>
    decreases |s|
  {
    if |s| == 0 then []
    else
      var k := s[|s| - 1];
      SweepAudits(tb, s[..|s| - 1], now, clock)
        + AuditRows(k, ActionAt(Swept(tb, s[..|s| - 1], now, clock), k), Swept(tb, s, now, clock).requests)
  }

  /** The sweep never adds or removes a request. */
  lemma {:induction false} SweepKeepsKeys(tb: Tables, s: seq<RequestId>, now: Instant, clock: Instant)
    ensures Swept(tb, s, now, clock).requests.Keys == tb.requests.Keys
    decreases |s|
  {
    if |s| > 0 {
      SweepKeepsKeys(tb, s[..|s| - 1], now, clock);
    }
  }

  /** A request the sweep does not visit is left as it was. */
  lemma {:induction false} SweepLeavesOthers(tb: Tables, s: seq<RequestId>, now: Instant, clock: Instant, k: RequestId)
    requires k in tb.requests && k !in s
    ensures k in Swept(tb, s, now, clock).requests
    ensures Swept(tb, s, now, clock).requests[k] == tb.requests[k]
    decreases |s|
  {
    if |s| > 0 {
      var p := s[..|s| - 1];
      forall j | 0 <= j < |p| ensures p[j] != k {
        assert p[j] == s[j];
      }
      SweepLeavesOthers(tb, s[..|s| - 1], now, clock, k);
    }
  }

  /** Dropping the last id of such a selection leaves one, which does not hold that id. */
  lemma PrefixOfSelection(requests: map<RequestId, ApprovalRequest>, now: Instant, s: seq<RequestId>)
    requires |s| > 0 && DistinctExpired(requests, now, s)
    ensures DistinctExpired(requests, now, s[..|s| - 1]) && s[|s| - 1] !in s[..|s| - 1]
  {
    var p := s[..|s| - 1];
    forall i | 0 <= i < |p| ensures p[i] != s[|s| - 1] {
      assert p[i] == s[i];
    }
  }

  /** One timeout call on an expired request takes it out of the sweep's filter at the same `now`. */
  lemma StepLeavesFilter(r: ApprovalRequest, grace: nat, now: Instant, clock: Instant)
    requires grace >= 1 && IsExpired(r, now)
    ensures !IsExpired(RequestAfterTimeout(r, grace, now, clock), now)
  {
    TimeoutStepProgress(r, grace, now, clock);
  }

  /**
   * Because the selection holds each request once and all of them were pending, no call in
   * one sweep sees a non-pending request: `skipped_non_pending` never occurs, and each
   * action is the one the request's stored policy calls for.
   */
  lemma {:induction false} SweepNeverSkips(tb: Tables, s: seq<RequestId>, now: Instant, clock: Instant)
    requires DistinctExpired(tb.requests, now, s)
    ensures forall i :: 0 <= i < |s| ==> SweepActions(tb, s, now, clock)[i] == TimeoutActionFor(tb.requests[s[i]])
    ensures forall i :: 0 <= i < |s| ==> SweepActions(tb, s, now, clock)[i] != SkippedNonPending
    decreases |s|
  {
    if |s| > 0 {
      var p := s[..|s| - 1];
      var k := s[|s| - 1];
      PrefixOfSelection(tb.requests, now, s);
      SweepNeverSkips(tb, p, now, clock);
      SweepLeavesOthers(tb, p, now, clock, k);
      var acts := SweepActions(tb, s, now, clock);
      forall i | 0 <= i < |s| ensures acts[i] == TimeoutActionFor(tb.requests[s[i]]) {
        if i < |p| {
          assert acts[i] == SweepActions(tb, p, now, clock)[i];
          assert s[i] == p[i];
        }
      }
    }
  }

  /**
   * After a sweep none of the requests it handled is selected again at the same `now`: a
   * final action leaves the request no longer pending, and an escalation moves its expiry
   * past `now`.
   */
  lemma {:induction false} SweptNotReselected(tb: Tables, s: seq<RequestId>, now: Instant, clock: Instant)
    requires DistinctExpired(tb.requests, now, s)
    ensures forall i :: 0 <= i < |s| ==> s[i] in Swept(tb, s, now, clock).requests
    ensures forall i :: 0 <= i < |s| ==> !IsExpired(Swept(tb, s, now, clock).requests[s[i]], now)
    decreases |s|
  {
    if |s| > 0 {
      var p := s[..|s| - 1];
      var k := s[|s| - 1];
      PrefixOfSelection(tb.requests, now, s);
      SweptNotReselected(tb, p, now, clock);
      SweepLeavesOthers(tb, p, now, clock, k);
      var prev := Swept(tb, p, now, clock);
      var r := prev.requests[k];
      var rs := Swept(tb, s, now, clock).requests;
      StepLeavesFilter(r, GraceMinutes(ConfigOf(prev, r)), now, clock);
      assert rs == prev.requests[k := RequestAfterTimeout(r, GraceMinutes(ConfigOf(prev, r)), now, clock)];
      forall i | 0 <= i < |s| ensures s[i] in rs && !IsExpired(rs[s[i]], now) {
        if i < |p| {
          assert s[i] == p[i];
        }
      }
    }
  }

  /**
   * A request the first sweep escalated is selected again once its extended expiry is
   * reached, and that sweep rejects it for good.
   */
  lemma SecondSweepRejectsEscalated(r: ApprovalRequest, grace: nat, now: Instant, later: Instant, clock: Instant, clock': Instant)
    requires grace >= 1 && TimeoutActionFor(r) == Escalated
    requires later >= now + Minutes(grace)
    ensures IsExpired(RequestAfterTimeout(r, grace, now, clock), later)
    ensures TimeoutActionFor(RequestAfterTimeout(r, grace, now, clock)) == EscalationExpiredRejected
    ensures RequestAfterTimeout(RequestAfterTimeout(r, grace, now, clock), grace, later, clock').status == Rejected
  {
    TimeoutStepProgress(r, grace, now, clock);
  }

  /** How many times `a` occurs. */
  function CountOf(actions: seq<TimeoutAction>, a: TimeoutAction): (n: nat)
    ensures n <= |actions|
    ensures n > 0 <==> a in actions
  {
    if |actions| == 0 then 0
    else CountOf(actions[..|actions| - 1], a) + (if actions[|actions| - 1] == a then 1 else 0)
  }

  /** The action a counter key names, if any. */
  function ActionNamed(name: string): (r: Option<TimeoutAction>)
    ensures r.Some? ==> TimeoutActionValue(r.value) == name
    ensures forall a :: TimeoutActionValue(a) == name ==> r == Some(a)
  {
    if name == "skipped_non_pending" then Some(SkippedNonPending)
    else if name == "auto_paused" then Some(AutoPaused)
    else if name == "escalated" then Some(Escalated)
    else if name == "escalation_expired_rejected" then Some(EscalationExpiredRejected)
    else if name == "auto_rejected" then Some(AutoRejected)
    else None
  }

  /** The sweep's result: one entry per action that occurred, with its count, and `processed`. */
  function SweepResponse(actions: seq<TimeoutAction>): map<string, nat> {
    (map a | a in actions :: TimeoutActionValue(a) := CountOf(actions, a))["processed" := |actions|]
  }

  /** The five counts partition the handled requests. */
  lemma {:induction false} CountsPartition(actions: seq<TimeoutAction>)
    ensures CountOf(actions, SkippedNonPending) + CountOf(actions, AutoPaused) + CountOf(actions, Escalated)
            + CountOf(actions, EscalationExpiredRejected) + CountOf(actions, AutoRejected) == |actions|
    decreases |actions|
  {
    if |actions| > 0 {
      CountsPartition(actions[..|actions| - 1]);
    }
  }

  /** `processed` is the number of requests handled, and it equals the sum of the five per-action counts. */
  lemma SweepResponseProcessed(actions: seq<TimeoutAction>)
    ensures "processed" in SweepResponse(actions) && SweepResponse(actions)["processed"] == |actions|
    ensures CountOf(actions, SkippedNonPending) + CountOf(actions, AutoPaused) + CountOf(actions, Escalated)
            + CountOf(actions, EscalationExpiredRejected) + CountOf(actions, AutoRejected)
            == SweepResponse(actions)["processed"]
  {
    CountsPartition(actions);
  }

  /** Each action that occurred is reported under its name with the number of times it occurred. */
  lemma SweepResponseEntry(actions: seq<TimeoutAction>, a: TimeoutAction)
    requires a in actions
    ensures TimeoutActionValue(a) in SweepResponse(actions)
    ensures SweepResponse(actions)[TimeoutActionValue(a)] == CountOf(actions, a)
  {
    var k := TimeoutActionValue(a);
    var counts := map b | b in actions :: TimeoutActionValue(b) := CountOf(actions, b);
    forall b | b in actions && TimeoutActionValue(b) == k ensures b == a {
      assert ActionNamed(k) == Some(a) && ActionNamed(k) == Some(b);
    }
    assert k in counts && counts[k] == CountOf(actions, a);
    assert k != "processed" by {
      assert k[0] != 'p' && "processed"[0] == 'p';
    }
  }

  /** Besides `processed`, the response only names actions that occurred. */
  lemma SweepResponseKeys(actions: seq<TimeoutAction>, key: string)
    requires key in SweepResponse(actions) && key != "processed"
    ensures ActionNamed(key).Some? && ActionNamed(key).value in actions
  {
    var counts := map b | b in actions :: TimeoutActionValue(b) := CountOf(actions, b);
    assert key in counts;
    var b :| b in actions && TimeoutActionValue(b) == key;
  }

  /** One more id of the selection extends the sweep by one `apply_timeout_policy` and its audit row. */
  lemma SweepExtends(tb: Tables, s: seq<RequestId>, i: nat, now: Instant, clock: Instant, audit0: seq<AuditEvent>)
    requires i < |s|
    ensures var prev := Swept(tb, s[..i], now, clock);
            var a := ActionAt(prev, s[i]);
            var next := TimeoutApplied(prev, s[i], now, clock);
            && Swept(tb, s[..i + 1], now, clock) == next
            && SweepActions(tb, s[..i + 1], now, clock) == SweepActions(tb, s[..i], now, clock) + [a]
            && SweepAudits(tb, s[..i + 1], now, clock) == SweepAudits(tb, s[..i], now, clock) + AuditRows(s[i], a, next.requests)
            && audit0 + SweepAudits(tb, s[..i + 1], now, clock)
               == (audit0 + SweepAudits(tb, s[..i], now, clock)) + AuditRows(s[i], a, next.requests)
  {
    assert s[..i + 1][..i] == s[..i];
  }

  /** One iteration of the sweep loop: the policy call and the audit row for its outcome. */
  method TimeoutAndAudit(db: Database, k: RequestId, now: Instant, clock: Instant) returns (action: TimeoutAction)
    requires db.ApprovalsValid() && k in db.requests
    modifies db`requests, db`decisions, db`intents, db`agents, db`audit
    ensures db.ApprovalsValid()
    ensures var before := Tables(old(db.requests), old(db.agents), old(db.intents), old(db.decisions));
            && action == ActionAt(before, k)
            && Tables(db.requests, db.agents, db.intents, db.decisions) == TimeoutApplied(before, k, now, clock)
            && db.audit == old(db.audit) + AuditRows(k, action, db.requests)
  {
    var rows: seq<AuditEvent>;
    action, rows := TimeoutThenRows(db, k, now, clock);
    AppendAudit(db, rows);
  }

  method TimeoutThenRows(db: Database, k: RequestId, now: Instant, clock: Instant) returns (action: TimeoutAction, rows: seq<AuditEvent>)
    requires db.ApprovalsValid() && k in db.requests
    modifies db`requests, db`decisions, db`intents, db`agents
    ensures db.ApprovalsValid()
    ensures var before := Tables(old(db.requests), old(db.agents), old(db.intents), old(db.decisions));
            && action == ActionAt(before, k)
            && Tables(db.requests, db.agents, db.intents, db.decisions) == TimeoutApplied(before, k, now, clock)
            && rows == AuditRows(k, action, db.requests)
  {
    assert db.requests[k].agentId in db.agents;
    var isFinal;
    action, isFinal := ApplyTimeoutPolicy(db, k, Some(now), clock);
    rows := AuditRows(k, action, db.requests);
  }

  /** The loop body of the sweep: it extends the sweep over `s[..i]` to `s[..i + 1]`. */
  method SweepStep(db: Database, ghost tb0: Tables, ghost audit0: seq<AuditEvent>, s: seq<RequestId>, i: nat,
                   now: Instant, clock: Instant) returns (action: TimeoutAction)
    requires db.ApprovalsValid() && i < |s| && s[i] in tb0.requests
    requires Tables(db.requests, db.agents, db.intents, db.decisions) == Swept(tb0, s[..i], now, clock)
    requires db.audit == audit0 + SweepAudits(tb0, s[..i], now, clock)
    modifies db`requests, db`decisions, db`intents, db`agents, db`audit
    ensures db.ApprovalsValid()
    ensures Tables(db.requests, db.agents, db.intents, db.decisions) == Swept(tb0, s[..i + 1], now, clock)
    ensures action == ActionAt(Swept(tb0, s[..i], now, clock), s[i])
    ensures db.audit == audit0 + SweepAudits(tb0, s[..i + 1], now, clock)
  {
    SweepExtends(tb0, s, i, now, clock, audit0);
    SweepKeepsKeys(tb0, s[..i], now, clock);
    action := TimeoutAndAudit(db, s[i], now, clock);
  }

  /**
   * `process_expired_approval_requests_task(batch_size)`. `now` is the single clock reading
   * shared by every call; `clock` is the clock `decided_at` reads. Returns the selection it
   * worked through and the response dictionary.
   */
  method ProcessExpired(db: Database, batch: nat, now: Instant, clock: Instant)
    returns (selected: seq<RequestId>, response: map<string, nat>)
    requires db.ApprovalsValid()
    modifies db`requests, db`decisions, db`intents, db`agents, db`audit
    ensures db.ApprovalsValid()
    ensures IsSweepSelection(old(db.requests), now, batch, selected)
    ensures var tb := Tables(old(db.requests), old(db.agents), old(db.intents), old(db.decisions));
            && Tables(db.requests, db.agents, db.intents, db.decisions) == Swept(tb, selected, now, clock)
            && db.audit == old(db.audit) + SweepAudits(tb, selected, now, clock)
            && response == SweepResponse(SweepActions(tb, selected, now, clock))
  {
    selected := SelectExpired(db.requests, now, batch);
    ghost var tb0 := Tables(db.requests, db.agents, db.intents, db.decisions);
    ghost var audit0 := db.audit;
    var actions: seq<TimeoutAction> := [];
    var i := 0;
    while i < |selected|
      invariant 0 <= i <= |selected|
      invariant db.ApprovalsValid()
      invariant Tables(db.requests, db.agents, db.intents, db.decisions) == Swept(tb0, selected[..i], now, clock)
      invariant actions == SweepActions(tb0, selected[..i], now, clock)
      invariant db.audit == audit0 + SweepAudits(tb0, selected[..i], now, clock)
    {
      SweepExtends(tb0, selected, i, now, clock, audit0);
      var action := SweepStep(db, tb0, audit0, selected, i, now, clock);
      actions := actions + [action];
      i := i + 1;
    }
    assert selected[..|selected|] == selected;
    response := SweepResponse(actions);
  }
}
