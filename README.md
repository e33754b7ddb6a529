# Trade-intent gating pipeline, modelled in Dafny

This project models the part of the agentic Zerodha trading platform that decides whether an
order may reach the broker, together with the webhook notifications for finished analysis
runs. The platform is a Django application. The model covers these parts:

- **Risk gate.** `RiskPolicyEngine.evaluate` scores an order's notional and symbol against the
  agent's policy.
- **Approval orchestration.** The orchestrator decides whether an order needs a human approval. It then builds the
  approval request: TTL, quorum, timeout policy and channels. It also queues the Telegram
  notification.
- **Approval state machine.** `ApprovalDecisionService` records approve and reject votes with
  their guards: conflict, permission and duplicate vote. A reject vetoes the request, and an
  approve finalizes it on quorum. Either outcome stamps the linked trade intent. The service also
  applies the three timeout policies, including the two-phase `escalate`.
- **Expiry sweep.** A periodic task selects expired pending requests, oldest first, up to a batch
  size. It applies the timeout policy to each with one `now`, tallies the actions and writes
  audit rows.
- **Intent executor.** `TradeIntentExecutor.process` either rejects the intent on a risk denial,
  parks it behind an approval request, or places it. Placement is in paper or live mode. The notional comes from `TradeIntent.save`.
- **Webhook dispatch.** A terminal analysis run raises an event. The owner's active endpoints are
  walked in id order, with one delivery record per (endpoint, run, event). Each attempt
  updates its record. Failed attempts back off exponentially. The response reports the
  counters and the least pending retry delay.
- **Surrounding rules.**
  - The approval queue's derived fields, filters and summary.
  - Telegram callback parsing, deduplication and decision flow.
  - The agent and webhook input validators.
  - The analysis-run lifecycle with its event sequence numbers.
  - The Celery task gates around that lifecycle.

There is one Dafny module per source file of the core: `RiskPolicyEngine`, `ExecutionModels`,
`ApprovalModels`, `DecisionEngine`, `Orchestrator`, `OrderExecutor`, `ApprovalTasks`,
`ApprovalSerializers`, `ApprovalViews`, `TelegramViews`, `AgentModels`, `AgentSerializers`,
`AnalysisRunService`, `AnalysisNotifications` and `AgentTasks`. Small helper modules
support them:

- `Wrappers`: Option and Result.
- `Text`: the ASCII behaviour of `str.strip`, `str.lower`, `int(...)` and `str(n)`.
- `Clock`: time.
- `Ids`: the primary keys.

The database is the class `Store.Database`. Its fields are maps and sequences, one per table
the core touches. Every operation that writes rows is a method with a field-granular
`modifies` frame. Its `ensures` states the new tables in terms of pure functions of the old
ones, and the lemmas prove the source's promises about those functions. The ghost predicate
`ApprovalsValid` collects the table invariants: ids are keys, the per-actor unique decision
constraint holds, at most one intent links to a request, and every saved notional is right.
Every state-changing method of the approval side preserves it.

Choices of representation:

- **Time.** Time is an integer count of microseconds, Python's `datetime` resolution.
  This keeps visible the truncation toward zero of `int(delta.total_seconds())`: a request that
  expired half a second ago has 0 seconds to expiry.
- **Money.** Money is an integer count of paise, the two-decimal `Decimal` of the source.
- **Side effects as parameters.**
  - Clock readings, `uuid4` keys, the broker adapter's reply, the analyst's behaviour, the
    cipher's outcome and the network's outcome are all parameters.
  - The HMAC-SHA256 signature is an uninterpreted function `sign(secret, body)`. HMAC is section
    2 of RFC 2104, and SHA-256 is FIPS 180-4.
  - JSON bodies and ISO 8601 timestamps are opaque strings.
- **Jobs.** Celery jobs that are queued appear as entries of an outbox sequence, not as their
  execution.
- **Sequential execution.** `decide` takes no lock
  (src/apps/approvals/services/decision_engine.py:48-122), so the model runs one operation at a
  time and claims nothing about races.
- **Units of configuration.** The due-soon threshold, TTLs and grace periods are read in the
  source's own units (seconds or minutes) and converted to microseconds where they meet a time.

## Model

| member | source | states |
|---|---|---|
| RiskPolicyEngine.Evaluate | src/apps/risk/services/policy_engine.py:16-35 | no policy approves with score 10; a notional above the maximum is denied with 95 before the symbol is looked at; a symbol outside a non-empty allow-list is denied with 90; otherwise approved with 20, each with its reason text |
| RiskPolicyEngine.ScoreCharacterisesApproval | src/apps/risk/services/policy_engine.py:16-35 | the score is always 10, 20, 90 or 95, and the decision approves exactly when the score is at most 20 |
| RiskPolicyEngine.NotionalBoundary | src/apps/risk/services/policy_engine.py:20-21 | the notional comparison is strict: a notional equal to the maximum passes and one paisa more is denied |
| RiskPolicyEngine.NotionalTakesPrecedence | src/apps/risk/services/policy_engine.py:21-26 | an over-limit order gets score 95 and the notional reason whatever its symbol |
| RiskPolicyEngine.LargeOrderDenied | src/apps/risk/services/policy_engine.py:21-26 | 50,000.00 against the default 10,000.00 limit is denied |
| ExecutionModels.NewTradeIntent | src/apps/execution/models.py:38-85 | a new intent is a draft on NSE, MARKET and MIS, with notional 0, no approval link, no broker id, no failure reason and no placement time |
| ExecutionModels.SavedNotional | src/apps/execution/models.py:96-99 | saving sets the notional to price times quantity when a price is set and the quantity is non-zero, and otherwise leaves it as it was |
| ExecutionModels.SaveIsIdempotent | src/apps/execution/models.py:96-99 | saving a saved intent again stores the same notional |
| ExecutionModels.PricelessIntentHasZeroNotional | src/apps/execution/models.py:70-72 | an intent without a price keeps its default notional of 0 |
| ApprovalModels.ParseChannel | src/apps/approvals/models.py:10-13 | reading a stored channel string back yields the channel whose value it is, and every channel's own value is read back as that channel |
| ApprovalModels.ParseDecision | src/apps/approvals/models.py:24-26 | the same inverse property for the decision choices `approve` and `reject` |
| ApprovalModels.ParsePolicy | src/apps/approvals/models.py:29-32 | the same inverse property for the three timeout policy choices |
| ApprovalModels.NewApprovalRequest | src/apps/approvals/models.py:35-84 | a new request is pending on the dashboard channel, needs 1 approval, has timeout policy `auto_reject`, is not escalated, and has no expiry, decision, notes, snapshot or risk score |
| ApprovalModels.AppendKeepsUnique | src/apps/approvals/models.py:108-115 | adding a decision keeps the one-row-per-actor-per-request constraint exactly when its actor is null or has no row for that request yet |
| ApprovalModels.ApprovedCount | src/apps/approvals/services/decision_engine.py:146-151 | the count of approve rows of a request never exceeds the number of rows |
| ApprovalModels.ApprovedCountAppend | src/apps/approvals/services/decision_engine.py:146-151 | one more row raises the approve count by one exactly when it is an approve for the request, and otherwise leaves it unchanged |
| ApprovalModels.ApprovedCountIsApprovers | src/apps/approvals/models.py:108-115 | under the unique constraint, when every approve row has an actor, a request's approve count equals the number of distinct users who approved it |
| ApprovalModels.ApprovingUsersAppend | src/apps/approvals/models.py:90-106 | one more row adds its actor to the approving users exactly when it is an approve for the request with an actor |
| ApprovalModels.AppendCallbackKeepsUnique | src/apps/approvals/models.py:121-122 | adding a Telegram callback row keeps `callback_query_id` unique exactly when that id is not stored yet |
| DecisionEngine.EligibleOrdinaryUsers | src/apps/approvals/services/decision_engine.py:159-170 | a user without staff or superuser rights may decide exactly when they are the agent's owner or one of its approvers |
| DecisionEngine.GuardError | src/apps/approvals/services/decision_engine.py:58-65 | the error `decide` raises, in its order: a conflict exactly when the request is not pending; otherwise a permission error exactly when the actor may not decide; otherwise a duplicate exactly when the actor already has a row; no error means a present actor with no earlier row |
| DecisionEngine.Quorum | src/apps/approvals/services/decision_engine.py:77 | the applied quorum is at least 1 and at least the stored value, and equals the stored value when that is 1 or more |
| DecisionEngine.RejectReason | src/apps/approvals/services/decision_engine.py:85 | the reject reason is never blank, and a given reason is kept |
| DecisionEngine.VoteStatus | src/apps/approvals/services/decision_engine.py:80-122 | a reject finalizes as rejected whatever the count; an approve finalizes as approved exactly when the approve count reaches the quorum; otherwise the request stays pending |
| DecisionEngine.RecordVote | src/apps/approvals/services/decision_engine.py:67-122 | one decision row is appended; the request is finalized or kept as its vote status says; the linked intent is rejected or approved; one execution job is queued exactly on approval of a linked intent; all table invariants are kept; an approved request has at least quorum-many distinct approving users |
| DecisionEngine.FinishVote | src/apps/approvals/services/decision_engine.py:172-191 | on reject the linked intent becomes rejected with the reason; on approve it becomes approved with the failure reason cleared and its id is queued for execution; otherwise nothing changes |
| DecisionEngine.Decide | src/apps/approvals/services/decision_engine.py:48-122 | the result is the guard error exactly when there is one, and then no table changes; otherwise the vote is applied as `RecordVote` states, and an approval is backed by quorum-many distinct approvers |
| DecisionEngine.TimeoutActionFor | src/apps/approvals/services/decision_engine.py:199-306 | the branch taken: skipped exactly for a non-pending request; auto-pause for the stored `auto_pause`; a first escalation or an escalation reject for `escalate`, by the escalated flag; auto-reject for any other stored string |
| DecisionEngine.GraceMinutes | src/apps/approvals/services/decision_engine.py:238-241 | the escalation grace is 15 minutes when the agent's config does not set it, otherwise the configured value floored at 1 |
| DecisionEngine.AppendNote | src/apps/approvals/services/decision_engine.py:325-329 | the note always ends the result; a blank original is replaced by the note; otherwise the right-stripped original, which is then non-empty, is followed by a newline and the note |
| DecisionEngine.RStripNonBlank | src/apps/approvals/services/decision_engine.py:327-329 | the right-stripped text is empty only when the whole text is whitespace, so stripping either end agrees on blank notes |
| DecisionEngine.TimeoutStepProgress | src/apps/approvals/services/decision_engine.py:199-306 | after a final action the request is no longer pending, so a second call is skipped, and it is decided by the system; a first escalation keeps the request pending with its expiry moved past the policy time, so the next call is the escalation reject; a skipped request is unchanged |
| DecisionEngine.TimeoutFinalStatus | src/apps/approvals/services/decision_engine.py:217-300 | auto-pause leaves the request expired; the escalation reject and the auto-reject leave it rejected |
| DecisionEngine.ApplyTimeoutPolicy | src/apps/approvals/services/decision_engine.py:193-323 | the action and finality are the branch's; the request, the agent (paused and not auto-enabled only after auto-pause), the linked intent (rejected with the branch's reason after a final action) and the decisions (one system reject row after a final action) become exactly what the branch writes; all table invariants are kept |
| DecisionEngine.DefaultReasonForChannel | src/apps/approvals/services/decision_engine.py:331-337 | the reason is empty exactly off Telegram; on Telegram it is the approve or reject default text |
| Orchestrator.RequiresApproval | src/apps/approvals/services/orchestrator.py:12-20 | mode none never requires approval, mode always always does, and the risk-based mode requires it exactly when the score reaches the configured threshold |
| Orchestrator.RequiresApprovalMonotone | src/apps/approvals/services/orchestrator.py:12-20 | in every mode, a higher risk score never needs approval less than a lower one |
| Orchestrator.RiskBasedDefaultSkipsPassingScores | src/apps/approvals/services/orchestrator.py:12-20 | in risk-based mode without a configured threshold, an approval is required exactly for scores of 50 or more |
| Orchestrator.ConfiguredChannels | src/apps/approvals/services/orchestrator.py:57-64 | the channel set is never empty, and it is the fallback channel alone unless the setting is a non-empty list |
| Orchestrator.ConfiguredChannelsOfList | src/apps/approvals/services/orchestrator.py:59-63 | for a non-empty list the channels are exactly the lower-cased items |
| Orchestrator.TelegramItemNotifies | src/apps/approvals/services/orchestrator.py:49-53 | an item that lower-cases to `telegram` enables the notification job whatever the request's channel |
| Orchestrator.TimeoutPolicyFor | src/apps/approvals/services/orchestrator.py:66-72 | the stored policy is always one of the three known policies: the lower-cased configured value when it is one, otherwise `auto_reject` |
| Orchestrator.StoredPolicyIsRecognised | src/apps/approvals/services/orchestrator.py:66-72 | the stored policy string always reads back as a timeout policy choice |
| Orchestrator.PriceSnapshot | src/apps/approvals/services/orchestrator.py:44 | the price appears in the snapshot exactly when it is set and non-zero, and is then the intent's price |
| Orchestrator.BuildRequest | src/apps/approvals/services/orchestrator.py:28-48 | the new request is pending, undecided and not escalated; it is requested by the agent's owner on the given channel; its quorum is at least 1 and at least the agent's, and equals the agent's when that is 1 or more; its policy is a known one; it carries the score and the intent snapshot; it expires the TTL (default 10 minutes) after now |
| Orchestrator.CreateRequest | src/apps/approvals/services/orchestrator.py:22-55 | the request is stored under a fresh id as `BuildRequest` builds it; the notification job is queued once, with that id, exactly when `telegram` is among the configured channels; all table invariants are kept |
| Store.Database.SaveIntent | src/apps/execution/models.py:96-99 | the saved row carries the notional `save` computes, which a second save would keep |
| Store.ReplaceRequestKeepsValid | src/apps/approvals/models.py:35-42 | rewriting a request that keeps its id, agent and idempotency key keeps the request table valid and its keys unchanged |
| Store.InsertRequestKeepsValid | src/apps/approvals/models.py:35-42 | inserting under the next id, for a stored agent and with an unused key, keeps the request table valid, and the decision and intent tables stay valid |
| Store.InsertRequest | src/apps/approvals/services/orchestrator.py:32-53 | the row is stored under the next id, the id counter advances, and the notification job is queued exactly when asked; all table invariants are kept |
| Store.AppendDecision | src/apps/approvals/models.py:90-115 | a decision row that respects the per-actor constraint is appended and all table invariants are kept |
| Store.ReplaceRequest | src/apps/approvals/services/decision_engine.py:124-144 | saving a request that keeps its id, agent and key replaces that one row and keeps all table invariants |
| Store.ReplaceAgent | src/apps/approvals/services/decision_engine.py:223-225 | saving a stored agent replaces that one row and keeps all table invariants |
| Store.UpdateLinkedIntentValid | src/apps/approvals/services/decision_engine.py:172-191 | only the linked intent, if any, gets the new status and failure reason; the returned id is that intent, and none is returned exactly when no intent is linked; all table invariants are kept |
| Store.AppendCallbackEvent | src/apps/approvals/models.py:121-122 | a callback row with an unused id is appended and all table invariants are kept |
| Store.AppendAudit | src/apps/audit/models.py:13-29 | the audit log only grows, by exactly the given rows in order |
| Store.AppendDecisionKeepsValid | src/apps/approvals/models.py:108-115 | a row for a stored request that respects the per-actor constraint, with an actor when it approves, keeps the decision table valid |
| Store.ReplaceIntentKeepsValid | src/apps/execution/models.py:38-52 | rewriting an intent that keeps its id, agent, key and saved notional, and keeps its link or links to an unlinked stored request, keeps the intent table valid |
| Store.UpdateIntent | src/apps/execution/models.py:96-99 | such a rewrite replaces that one row and keeps all table invariants |
| Store.FreshRequestUnlinked | src/apps/execution/models.py:46-52 | a request id that is not stored yet has no linked intent |
| Store.AtMostOneLinkedIntent | src/apps/execution/models.py:46-52 | under the one-to-one link a request has at most one linked intent |
| Store.FindLinkedIntent | src/apps/approvals/services/decision_engine.py:174-176 | the lookup returns the linked intent, and nothing exactly when no intent is linked |
| Store.UpdateLinkedKeepsValid | src/apps/approvals/services/decision_engine.py:172-191 | changing only the linked intent's status and failure reason keeps the intent table valid |
| Store.UpdateLinkedIntent | src/apps/approvals/services/decision_engine.py:172-191 | the intents become the linked update of the old intents, the table stays valid, and the result names the linked intent or nothing when there is none |
| Store.UpdateLinkedShape | src/apps/approvals/services/decision_engine.py:174-180 | with no linked intent the update changes nothing; with one, it changes exactly that entry |
| OrderExecutor.RouteFor | src/apps/execution/services/order_executor.py:21-62 | exactly one branch: risk-rejected exactly on a risk denial; then needs-approval exactly when the approval gate fires on the risk score; otherwise paper or live placement by the agent's execution mode |
| OrderExecutor.PaperOrderIdsDistinct | src/apps/execution/services/order_executor.py:48 | distinct intents get distinct simulated order ids `paper-{id}` |
| OrderExecutor.ExecutedStatus | src/apps/execution/services/order_executor.py:24-75 | only a live placement whose adapter raised yields no intent; otherwise the status is rejected, pending approval or placed; rejected exactly on a risk denial, with the risk reason; pending exactly on the approval branch, linked to the new request; a placed intent carries the placement time; `failed` is never set |
| OrderExecutor.ExecutedKeepsOrder | src/apps/execution/services/order_executor.py:25-75 | `process` keeps the id, agent, key, order terms and notional, so the saved notional stays right, and it changes the approval link only on the approval branch |
| OrderExecutor.NoPolicyPlacesDirectly | src/apps/execution/services/order_executor.py:22-46 | without a risk policy, in risk-based mode with the default threshold, an order is placed without approval |
| OrderExecutor.Process | src/apps/execution/services/order_executor.py:21-77 | the intent becomes what the branch writes and the reply reports its status and detail; an adapter error changes nothing; the approval branch creates the request with the gate's risk score on the dashboard channel, and no other branch touches the requests or the notification queue; all table invariants are kept |
| ApprovalTasks.EarliestExists | src/apps/approvals/tasks.py:35 | every non-empty set of requests has one whose expiry is earliest |
| ApprovalTasks.TakeEarliest | src/apps/approvals/tasks.py:28-36 | taking an earliest-expiring remaining request keeps the selection distinct, in expiry order and never later than any request still left |
| ApprovalTasks.SelectionDone | src/apps/approvals/tasks.py:28-36 | a selection that is full or has run out of candidates is exactly what the query returns |
| ApprovalTasks.SelectExpired | src/apps/approvals/tasks.py:28-36 | the query's result: distinct pending requests whose expiry is set and not after now, in non-decreasing expiry order, none expiring after an expired request left out, and min(batch, number expired) of them |
| ApprovalTasks.AuditLevelRule | src/apps/approvals/tasks.py:52 | the audit level is WARNING exactly for `auto_paused` and `auto_rejected`; both escalation actions are INFO |
| ApprovalTasks.SweepActions | src/apps/approvals/tasks.py:41-46 | one action per handled request |
| ApprovalTasks.SweepKeepsKeys | src/apps/approvals/tasks.py:41-46 | the sweep never adds or removes a request |
| ApprovalTasks.SweepLeavesOthers | src/apps/approvals/tasks.py:41-46 | a request the sweep does not visit is left as it was |
| ApprovalTasks.PrefixOfSelection | src/apps/approvals/tasks.py:28-36 | a prefix of a selection is still a selection, and it does not hold the id that follows it |
| ApprovalTasks.StepLeavesFilter | src/apps/approvals/tasks.py:42-45 | one timeout call on an expired request takes it out of the filter at the same now |
| ApprovalTasks.SweepNeverSkips | src/apps/approvals/tasks.py:41-48 | within one sweep each action is the one the request's stored policy calls for, so `skipped_non_pending` never occurs |
| ApprovalTasks.SweptNotReselected | src/apps/approvals/tasks.py:27-46 | after a sweep none of the requests it handled matches the filter again at the same now |
| ApprovalTasks.SecondSweepRejectsEscalated | src/apps/approvals/services/decision_engine.py:236-287 | a request the first sweep escalated is selected again once its extended expiry passes, and the second sweep rejects it |
| ApprovalTasks.CountOf | src/apps/approvals/tasks.py:46 | an action's count never exceeds the number of actions, and it is positive exactly when the action occurred |
| ApprovalTasks.ActionNamed | src/apps/approvals/tasks.py:63 | a counter key names at most one action, the one whose value it is |
| ApprovalTasks.CountsPartition | src/apps/approvals/tasks.py:46-64 | the five per-action counts add up to the number of handled requests |
| ApprovalTasks.SweepResponseProcessed | src/apps/approvals/tasks.py:63-64 | `processed` is the number of handled requests, and it equals the sum of the per-action counts |
| ApprovalTasks.SweepResponseEntry | src/apps/approvals/tasks.py:63 | each action that occurred is reported under its name with its count |
| ApprovalTasks.SweepResponseKeys | src/apps/approvals/tasks.py:63-64 | besides `processed`, the response names only actions that occurred |
| ApprovalTasks.SweepExtends | src/apps/approvals/tasks.py:41-61 | one more id of the selection extends the sweep by one timeout call, its action and its audit row |
| ApprovalTasks.TimeoutAndAudit | src/apps/approvals/tasks.py:42-61 | one timeout call changes the tables as `apply_timeout_policy` says, and one audit row is appended unless the action was `skipped_non_pending` |
| ApprovalTasks.TimeoutThenRows | src/apps/approvals/tasks.py:42-61 | the timeout call, and the audit rows for its outcome with the request's status and policy after the call |
| ApprovalTasks.SweepStep | src/apps/approvals/tasks.py:41-61 | the loop body moves the tables and the audit log from the sweep over the first i ids to the sweep over the first i+1 |
| ApprovalTasks.ProcessExpired | src/apps/approvals/tasks.py:22-65 | the sweep works through exactly the query's selection, with one now for every call; the tables become the sweep's result; the audit log gains the sweep's rows in order; the response holds the per-action counts and `processed`; all table invariants are kept |
| ApprovalSerializers.PendingApprovals | src/apps/approvals/serializers.py:61-64 | the approvals still missing are never negative, together with the approve count they cover the required number, and they are zero exactly when the count reaches it |
| ApprovalSerializers.NothingPendingIffQuorum | src/apps/approvals/serializers.py:61-64 | for a request needing at least one approval, nothing is missing exactly when the count reaches the quorum `decide` finalizes on |
| ApprovalSerializers.OverdueIsSweepFilter | src/apps/approvals/serializers.py:66-71 | the overdue flag marks exactly the requests the expiry sweep selects from |
| ApprovalSerializers.SecondsToExpiry | src/apps/approvals/serializers.py:73-78 | no value exactly without an expiry; otherwise the whole seconds left, truncated toward zero on both sides of now |
| ApprovalSerializers.Bucket | src/apps/approvals/serializers.py:80-93 | closed exactly for a non-pending request; no_expiry for a pending one without expiry; overdue for negative seconds; due_soon up to the threshold (default 300); normal above it |
| ApprovalSerializers.OverdueBucketIffSecondPast | src/apps/approvals/serializers.py:84-88 | a pending request is in the overdue bucket exactly when it expired at least a whole second ago |
| ApprovalSerializers.BucketAndFlagAgreeUpToOneSecond | src/apps/approvals/serializers.py:66-93 | the overdue bucket implies the overdue flag; the flag without the bucket happens exactly for a pending request that expired less than a second ago, which is then in due_soon |
| ApprovalSerializers.ValidateDecisionInput | src/apps/approvals/serializers.py:96-111 | accepted exactly when the decision is approve or reject, any channel given is a known one and any reason is free of null characters; the channel defaults to dashboard; the reason is kept stripped; otherwise the errors name exactly the failing fields, with the required message for a missing decision, the invalid-choice message naming the input for an unknown decision or channel, and the null-characters message for the reason |
| ApprovalSerializers.ValidInputRoundTrip | src/apps/approvals/serializers.py:96-111 | every decision and channel value, with any reason free of null characters, is accepted and read back as itself |
| ApprovalViews.VisibleIds | src/apps/approvals/views.py:27-35 | the user sees exactly the stored requests whose agent they own or list them as an approver |
| ApprovalViews.VisibleMeansEligible | src/apps/approvals/views.py:27-35 | everyone who sees a request may decide it, and for users without staff or superuser rights seeing and being allowed to decide coincide |
| ApprovalViews.DueSoonSeconds | src/apps/approvals/views.py:37-44 | the threshold is at least 1: 300 when the parameter is missing or not an integer, otherwise the integer raised to 1 |
| ApprovalViews.DueSoonOfNumber | src/apps/approvals/views.py:39-41 | a positive number sent as the parameter is used as it is |
| ApprovalViews.DueSoonAcceptsUnderscores | src/apps/approvals/views.py:39-41 | a single underscore between two runs of digits is read as `int` reads it, as if it were not there |
| ApprovalViews.Narrow | src/apps/approvals/views.py:55-74 | a filter keeps exactly the rows it matches, and never adds any |
| ApprovalViews.NarrowAllKeeps | src/apps/approvals/views.py:46-76 | after a chain of filters exactly the rows every one of them keeps remain |
| ApprovalViews.FilterQueryset | src/apps/approvals/views.py:46-76 | the result is the queryset narrowed by each filter whose parameter is given; an `agent_id` that is not all digits and unrecognised `overdue` or `mine_only` values are ignored |
| ApprovalViews.FilterFields | src/apps/approvals/views.py:55-60 | the `status`, `channel` and `agent_id` filters, each applied only when its parameter is given |
| ApprovalViews.FilterFlags | src/apps/approvals/views.py:61-74 | the `overdue` and `mine_only` filters, each applied only for the value it names |
| ApprovalViews.NarrowAllAppend | src/apps/approvals/views.py:46-76 | applying two chains of filters one after the other is applying their concatenation |
| ApprovalViews.OverdueFiltersPartition | src/apps/approvals/views.py:61-72 | `overdue=true` and `overdue=false` split any queryset between them |
| ApprovalViews.ExpiringNowIsNotViewOverdue | src/apps/approvals/views.py:61-66 | the view's overdue test is strict: a pending request expiring exactly now is not overdue for the view, though the serializer flags it and the sweep selects it |
| ApprovalViews.CountDueSoon | src/apps/approvals/views.py:143-147 | the due-soon count never exceeds the number of rows |
| ApprovalViews.Summary | src/apps/approvals/views.py:128-157 | the pending count is at most the filtered count and is 0 exactly when no filtered request is pending; the overdue, due-soon and mine-pending counts are each at most the pending count |
| ApprovalViews.OverdueAndDueSoonDisjoint | src/apps/approvals/views.py:142-147 | no row is counted as both overdue and due soon |
| ApprovalViews.SummaryBounds | src/apps/approvals/views.py:135-156 | the pending count is at most the filtered count; overdue and due-soon together are at most the pending count; mine-pending is at most the pending count; the overdue count is what the `overdue=true` filter returns |
| ApprovalViews.ErrorResponse | src/apps/approvals/views.py:104-118 | a permission error is 403 and a conflict or a duplicate is 400, each with the service's message |
| ApprovalViews.ErrorMessagesDistinct | src/apps/approvals/views.py:104-118 | different service errors give different responses |
| ApprovalViews.DecideView | src/apps/approvals/views.py:78-126 | a request outside the visible rows narrowed by the query parameters is a 404 and an invalid body a 400 with the field errors, both changing nothing; a refused decision is the 403 or 400 of its guard with its fixed message and changes nothing; otherwise the vote is applied and the 200 body holds whether it was final, the approval count and the quorum; all table invariants are kept |
| ApprovalViews.GetObject | src/apps/approvals/views.py:46-86 | the request is found exactly when it is visible to the user and kept by every narrowing the query parameters ask for |
| ApprovalViews.NoParamsFindsVisible | src/apps/approvals/views.py:46-86 | with no query parameters exactly the visible requests are found |
| ApprovalViews.StatusFilterHides | src/apps/approvals/views.py:55-56 | a `status` parameter other than the request's status hides it |
| ApprovalViews.MineOnlyHidesDecided | src/apps/approvals/views.py:74-75 | with `mine_only=true` a request the user has already decided is not found |
| TelegramViews.IsValidSecret | src/apps/approvals/telegram_views.py:140-150 | a call is accepted exactly when a secret is configured and both the path segment and the header token equal it |
| TelegramViews.UnconfiguredSecretRefusesAll | src/apps/approvals/telegram_views.py:140-144 | without a configured secret every call is refused |
| TelegramViews.AcceptedCallCarriesSecret | src/apps/approvals/telegram_views.py:140-150 | an accepted call carried the configured, non-blank secret both in the path and in the header |
| TelegramViews.MatchTail | src/apps/approvals/telegram_views.py:22 | a matched tail is digits, a colon and the decision word |
| TelegramViews.DropFinalNewline | src/apps/approvals/telegram_views.py:22 | the text is the result, or the result followed by one newline |
| TelegramViews.DropFinalNewlineOf | src/apps/approvals/telegram_views.py:22 | a text not ending in a newline comes back as itself, with or without one newline added |
| TelegramViews.ParseCallback | src/apps/approvals/telegram_views.py:22-51 | a match holds digits, and the data is exactly the matched text, optionally followed by one final newline (Python's `$`) |
| TelegramViews.MatchTailComplete | src/apps/approvals/telegram_views.py:22 | every tail of the pattern's form is split back into its digits and its word |
| TelegramViews.ParseCallbackComplete | src/apps/approvals/telegram_views.py:22-51 | every string of the pattern's form, with or without a final newline, is matched with the digits and word it holds |
| TelegramViews.ButtonDataRoundTrip | src/apps/approvals/services/telegram_client.py:43-51 | the button data for a request id and decision parses back to that id and decision |
| TelegramViews.ExtractTelegramUserId | src/apps/approvals/telegram_views.py:131-138 | the message's chat id when present, otherwise the sender's id, otherwise the blank string |
| TelegramViews.ProfileAsWritten | src/apps/approvals/telegram_views.py:71-76 | no profile exactly when none has the chat id; otherwise a stored profile with that chat id, updated no earlier than any other with it |
| TelegramViews.BlankIdFindsUnlinkedProfile | src/apps/approvals/telegram_views.py:71-138 | a callback without a message chat or a sender yields the blank id, and the lookup as written then finds a profile that was never linked |
| TelegramViews.LinkedProfile | src/apps/approvals/telegram_views.py:71-80 | a found profile is stored and linked to the given non-blank id; for a non-blank id it is the written lookup; the blank id finds nobody |
| TelegramViews.DecidingUserIsOwner | src/apps/approvals/telegram_views.py:71-96 | the request reached for a decision belongs to an agent the linked user owns, so `decide` never refuses it for permission, and that user's profile is linked to a non-blank Telegram id (a consequence of the corrected lookup) |
| TelegramViews.ReplayIsDuplicate | src/apps/approvals/telegram_views.py:47-48 | once the view has recorded a callback, the same callback id is answered as a duplicate whatever else has changed |
| TelegramViews.Post | src/apps/approvals/telegram_views.py:29-129 | the responses in branch order: forbidden, ignored, duplicate, ignored on no match, unauthorized, not found; exactly the recording branches append one callback row; only the decision branch touches the approval tables; there a conflict is already-decided, a repeated voter escapes as an error, and otherwise the Telegram decision row with the channel's default reason and the callback metadata is recorded with `decide`'s whole effect on the request, the linked intent and the execution queue; already-decided and the escaping error leave the approval tables unchanged |
| TelegramViews.RecordAndDecide | src/apps/approvals/telegram_views.py:92-129 | the callback row linked to the request is appended; then already-decided exactly for a non-pending request, an escaping error exactly for a repeated voter, and processed with that row's id otherwise, with the Telegram decision row recorded and `decide`'s effect on the request, the linked intent and the execution queue, the outcome being the approval count and quorum after the vote; the two other answers leave the approval tables unchanged |
| AgentModels.NewAgent | src/apps/agents/models.py:43-59 | a new agent is a draft in paper mode with risk-based approval, automation off, an empty config and no risk policy |
| AgentModels.DefaultEventTypes | src/apps/agents/services/analysis_notifications.py:17-38 | the default subscription is exactly the accepted event types |
| AgentModels.NewDelivery | src/apps/agents/services/analysis_notifications.py:130-138 | a created record has its key and the configured attempt limit, no attempt, no success, and no retry, attempt or delivery time |
| AnalysisNotifications.StoredSecret | src/apps/agents/services/analysis_notifications.py:48-66 | the empty secret is stored as "" without the cipher; any other secret as what the cipher returned |
| AnalysisNotifications.NewEndpoint | src/apps/agents/services/analysis_notifications.py:32-53 | fails exactly when a non-empty secret fails to encrypt; otherwise the owner's row with the given name and URL, active unless told otherwise, the default event types unless listed, the given headers or none, and an empty stored secret exactly when the secret or its ciphertext is empty; a non-empty secret is stored as the cipher's output |
| AnalysisNotifications.UpdatedEndpoint | src/apps/agents/services/analysis_notifications.py:55-69 | fails exactly when a non-empty new secret fails to encrypt; otherwise each named field replaced and every other kept, the secret kept when not named, cleared when named empty, and stored as the cipher's output when named non-empty |
| AnalysisNotifications.Decrypt | src/apps/agents/services/analysis_notifications.py:71-74 | an empty ciphertext is the empty secret without the cipher; any other is what the cipher returns |
| AnalysisNotifications.EmptySecretRoundTrip | src/apps/agents/services/analysis_notifications.py:32-74 | an endpoint created or updated with an empty secret is always saved and always decrypts to "", whatever the cipher does |
| AnalysisNotifications.NonEmptySecretGoesToCipher | src/apps/agents/services/analysis_notifications.py:32-74 | with a non-empty secret and a non-empty ciphertext, create and update both store exactly that ciphertext, and decrypting the saved row goes to the cipher |
| AnalysisNotifications.CreateForUser | src/apps/agents/services/analysis_notifications.py:32-53 | the built row stored under the next fresh id, which advances; on an encryption failure nothing changes; endpoints stay keyed by their own ids |
| AnalysisNotifications.UpdateEndpoint | src/apps/agents/services/analysis_notifications.py:55-69 | the updated row replaces the stored one, or nothing changes on an encryption failure; endpoints stay keyed by their own ids |
| AnalysisNotifications.ClampConfig | src/apps/agents/services/analysis_notifications.py:77-98 | the five settings meet their lower bounds; a setting that already meets its bound is kept; the retry ceiling is the setting or the clamped base; with nothing set the defaults 10, 1500, 3, 30 and 900 |
| AnalysisNotifications.EventTypeForStatus | src/apps/agents/services/analysis_notifications.py:178-186 | an event exactly for the completed, failed and canceled statuses, named `analysis_run.` plus the status, and among the accepted event types |
| AnalysisNotifications.EventTypesDistinct | src/apps/agents/services/analysis_notifications.py:178-186 | different terminal statuses raise different events |
| AnalysisNotifications.RetryDelay | src/apps/agents/services/analysis_notifications.py:356-361 | no delay exactly when the attempts are used up; otherwise the smaller of the ceiling and the base doubled once for each attempt after the first, and at least one second |
| AnalysisNotifications.RetryDelayDoubles | src/apps/agents/services/analysis_notifications.py:356-361 | each further attempt doubles the previous delay, capped at the ceiling |
| AnalysisNotifications.FirstRetryIsBase | src/apps/agents/services/analysis_notifications.py:356-361 | the first failed attempt asks for a retry after exactly the base delay |
| AnalysisNotifications.MinDelay | src/apps/agents/services/analysis_notifications.py:363-367 | no larger than the candidate or the current delay, and equal to one of them |
| AnalysisNotifications.NextRetryAt | src/apps/agents/services/analysis_notifications.py:226-303 | a retry time exactly for a present non-zero delay, that many seconds after the attempt |
| AnalysisNotifications.RequestHeaders | src/apps/agents/services/analysis_notifications.py:209-326 | with a secret, the signature header holds `sha256=` and the HMAC of the body; without one it is there only if the endpoint set it; every other endpoint header wins over the fixed ones; the event, content-type, delivery-id and run-id headers hold the event, `application/json` and the two ids unless the endpoint overrides them |
| AnalysisNotifications.Truncate | src/apps/agents/services/analysis_notifications.py:258 | a prefix of the text, of the text's length when that fits and of exactly the limit otherwise |
| AnalysisNotifications.Deliver | src/apps/agents/services/analysis_notifications.py:199-317 | every attempt counts once, is stamped and stores the payload; success exactly for a decrypted secret and a 2xx answer; a POST exactly when decryption worked, to the endpoint's URL with the body, the timeout and the signature when there is a secret; success sets the delivery time and clears the error and retry; failure reports the backoff delay and schedules the retry; a status code exactly when an answer arrived, with its text truncated; the error text of a failure is the decryption error, the network error or the HTTP status message; the POST carries the headers of `RequestHeaders` |
| AnalysisNotifications.Handle | src/apps/agents/services/analysis_notifications.py:124-166 | an unsubscribed endpoint exactly is passed over without a record; otherwise the one record for (endpoint, run, event) exists afterwards, created with a fresh id if missing; no other record changes; already-delivered exactly for a record that succeeded; only an attempt changes an existing record, adding one attempt; a wait is at least one second |
| AnalysisNotifications.FanoutCounts | src/apps/agents/services/analysis_notifications.py:118-176 | every endpoint adds one to exactly one of delivered, failed and skipped, and exactly the subscribed ones count as attempted |
| AnalysisNotifications.CountKeepsMinimum | src/apps/agents/services/analysis_notifications.py:148-367 | counting one outcome keeps the reported retry the least candidate delay seen, none exactly when there was none |
| AnalysisNotifications.FanoutRetryIsMinimum | src/apps/agents/services/analysis_notifications.py:122-175 | after the loop the reported retry is the least candidate delay, none exactly when there was none |
| AnalysisNotifications.FanoutKeys | src/apps/agents/services/analysis_notifications.py:124-138 | the loop adds exactly the records of the subscribed endpoints and no others |
| AnalysisNotifications.SettledFanoutIsQuiet | src/apps/agents/services/analysis_notifications.py:140-142 | when every subscribed endpoint's record already succeeded, a dispatch sends no POST and leaves the records, the next id and the delivered and failed counts as they were |
| AnalysisNotifications.SecondDispatchAfterSuccess | src/apps/agents/services/analysis_notifications.py:140-162 | after a delivery answered 2xx, dispatching again to that endpoint sends nothing and leaves its record as it was |
| AnalysisNotifications.ActiveEndpointIds | src/apps/agents/services/analysis_notifications.py:188-197 | strictly ascending ids of the owner's active endpoints, and every such endpoint below the bound is among them |
| AnalysisNotifications.ActiveEndpointsAreAll | src/apps/agents/services/analysis_notifications.py:188-197 | with every endpoint below the next fresh id, the ids are exactly the owner's active endpoints |
| AnalysisNotifications.DispatchTallies | src/apps/agents/services/analysis_notifications.py:100-176 | delivered, failed and skipped add up to the number of active endpoints; attempted is the number of subscribed ones; the reported retry is the least candidate delay |
| AnalysisNotifications.HandleEndpoint | src/apps/agents/services/analysis_notifications.py:124-166 | the outcome and the new delivery table and next id are those `Handle` gives |
| AnalysisNotifications.Tallied | src/apps/agents/services/analysis_notifications.py:125-166 | the counters move as `Count` says for the outcome |
| AnalysisNotifications.FanOut | src/apps/agents/services/analysis_notifications.py:118-166 | the counters, the POSTs sent and the new delivery table are those of the loop over the ids in order |
| AnalysisNotifications.DispatchForRun | src/apps/agents/services/analysis_notifications.py:100-176 | a run that is not finished gets the not-final reason and changes nothing; a finished one gets its event and the counters, retry delay, POSTs and records of the loop over the owner's active endpoints |
| AgentTasks.RunAgentTask | src/apps/agents/tasks.py:16-23 | the skip reply for an agent that is not both active and auto-enabled, the runtime's reply for one that is |
| AgentTasks.OnlyActiveAutoAgentsRun | src/apps/agents/tasks.py:19-20 | the skip reply comes back exactly when the agent is not active or has automation off |
| AgentTasks.Gate | src/apps/agents/tasks.py:28-32 | a canceled run is answered canceled, a completed or failed one skipped with its status, and exactly pending and running runs go on to execute |
| AgentTasks.ReplyFor | src/apps/agents/tasks.py:34-77 | canceled exactly for the cancel error or a result whose status is "canceled"; failed with the error's message exactly for the other errors; completed otherwise; never skipped |
| AgentTasks.AuditFor | src/apps/agents/tasks.py:39-77 | at most one row, none exactly when the reply is canceled; the row is about the run and its requester, WARNING exactly for the missing credential, ERROR exactly for the other errors, INFO exactly for completion, with the error message or the completed event type |
| AgentTasks.ExecuteAnalysisRunTask | src/apps/agents/tasks.py:26-77 | the reply of the gate or of the executed outcome; a gated run changes no run, event or audit row; an executed run is stored as the run service leaves it, its events are appended in order after the highest sequence, and its outcome's audit rows are appended |
| AgentTasks.CanceledResultStoresCompletedRun | src/apps/agents/tasks.py:62-63 | a result whose status is "canceled" is reported canceled while the stored run is completed and its last event is `run_completed` |
| AgentTasks.UnknownErrorReportsFailure | src/apps/agents/tasks.py:50-60 | an analyst exception outside the known classes is reported failed with its message and gets one ERROR audit row |
| AgentTasks.SecondCallSkips | src/apps/agents/tasks.py:31-32 | a second call on a run the first call executed is answered skipped with the status completed or failed |
| AnalysisRunService.RunEventsMembers | src/apps/agents/services/analysis_run_service.py:135 | the run's events are exactly the logged events of that run |
| AnalysisRunService.MaxSequenceIsMax | src/apps/agents/services/analysis_run_service.py:133-139 | the value is at least every sequence of the run's events and is one of them, or 0 when the run has none |
| AnalysisRunService.MaxIsCount | src/apps/agents/services/analysis_run_service.py:133-145 | in a log built by appends, a run's largest sequence is the number of its events |
| AnalysisRunService.AppendKeepsLogValid | src/apps/agents/services/analysis_run_service.py:140-145 | appending the event numbered one past the run's largest sequence keeps the log well numbered |
| AnalysisRunService.RunSequencesCount | src/apps/agents/services/analysis_run_service.py:125-146 | each run's events are numbered 1, 2, 3, ... in insertion order |
| AnalysisRunService.RunEventsGrow | src/apps/agents/services/analysis_run_service.py:125-146 | a longer prefix of the log holds at least as many of a run's events, and more when it takes in one of them |
| AnalysisRunService.PrefixValid | src/apps/agents/services/analysis_run_service.py:125-146 | every prefix of a well-numbered log is well numbered |
| AnalysisRunService.SequenceAt | src/apps/agents/services/analysis_run_service.py:140-145 | each event is numbered one past the count of its run's earlier events |
| AnalysisRunService.SequencesIncrease | src/apps/agents/services/analysis_run_service.py:125-146 | within one run a later event has a strictly larger sequence number |
| AnalysisRunService.AppendEvent | src/apps/agents/services/analysis_run_service.py:125-146 | the event of the run numbered one past its largest sequence, with the given type and payload, appended to the log |
| AnalysisRunService.NumberedAt | src/apps/agents/services/analysis_run_service.py:125-146 | the i-th of a series of appends is an event of the run numbered from the start plus i |
| AnalysisRunService.MaxAfterNumbered | src/apps/agents/services/analysis_run_service.py:133-145 | after a series of appends the run's largest sequence is the last number written |
| AnalysisRunService.NumberedSnoc | src/apps/agents/services/analysis_run_service.py:140-145 | one more append extends the series by one event with the next number |
| AnalysisRunService.NextAfterNumbered | src/apps/agents/services/analysis_run_service.py:133-142 | after a series of appends the next number is the series' start plus its length |
| AnalysisRunService.AppendNext | src/apps/agents/services/analysis_run_service.py:125-146 | an append after a series of appends extends the series by that one event |
| AnalysisRunService.NumberedKeepsLogValid | src/apps/agents/services/analysis_run_service.py:125-146 | a series of appends to a well-numbered log leaves it well numbered |
| AnalysisRunService.NewRun | src/apps/agents/services/analysis_run_service.py:28-35 | a pending, unstarted run of the agent with the requester, query, model and step budget given |
| AnalysisRunService.CreateRun | src/apps/agents/services/analysis_run_service.py:19-36 | the new pending run stored under a fresh id and nothing else changed; runs stay keyed by their own ids |
| AnalysisRunService.Reraised | src/apps/agents/services/analysis_run_service.py:63-98 | the same message; the credential and agent errors re-raised as they are; any other exception as an agent error |
| AnalysisRunService.RunAfter | src/apps/agents/services/analysis_run_service.py:39-104 | started and completed at the two clock readings; completed exactly when the analyst returned, with its analysis, usage and step count or their defaults; failed with the message otherwise; identity and inputs kept |
| AnalysisRunService.Emitted | src/apps/agents/services/analysis_run_service.py:52-53 | the analyst's events in order, each with its type and payload |
| AnalysisRunService.ExecutionLogShape | src/apps/agents/services/analysis_run_service.py:42-122 | `run_started` with the query, model and budget, then the analyst's events in order, then `run_completed` when it returned or `run_failed` with the message when it raised |
| AnalysisRunService.ExecutedRunIsTerminal | src/apps/agents/services/analysis_run_service.py:64-100 | an executed run is completed exactly when the analyst returned and failed exactly when it raised, never pending, running or canceled |
| AnalysisRunService.Execute | src/apps/agents/services/analysis_run_service.py:38-123 | the run row becomes `RunAfter`, the log grows by the execution log numbered from the run's next sequence, and the result is the analyst's or the re-raised exception |
| AnalysisRunService.ForwardEvents | src/apps/agents/services/analysis_run_service.py:52-53 | each reported event is appended in order with the run's next numbers |
| AnalysisRunService.EmittedSnoc | src/apps/agents/services/analysis_run_service.py:52-53 | one more reported event adds one entry at the end |
| AnalysisRunService.ExecuteKeepsLogValid | src/apps/agents/services/analysis_run_service.py:38-146 | execution leaves the log well numbered, and the run gains exactly its execution log's events |
| AgentSerializers.ValidateApprovals | src/apps/agents/serializers.py:40-74 | valid exactly when a submitted quorum is at least 1 and the quorum (submitted, else stored, else 1) is at most one more than the approver count as written; the payload passes unchanged; errors name only `required_approvals`, with the minimum message or the exceeds message carrying the computed maximum |
| AgentSerializers.Elements | src/apps/agents/serializers.py:48-82 | the approver set holds exactly the listed users, and no more of them than the list has entries |
| AgentSerializers.Saved | src/apps/agents/serializers.py:44-83 | identity, owner and status kept; a submitted quorum replaces the stored one; a submitted list replaces the approver set with exactly its members; an omitted list keeps the set |
| AgentSerializers.DuplicateApproversPassValidation | src/apps/agents/serializers.py:58-65 | a quorum of 3 with the approver list [2, 2] passes the validation as written, while the saved agent has one approver besides the owner and cannot reach it |
| AgentSerializers.ValidateApprovalsDistinct | src/apps/agents/serializers.py:51-74 | valid exactly when a submitted quorum is at least 1 and the quorum is at most one more than the distinct approvers other than the owner; the payload passes unchanged; errors name only `required_approvals` |
| AgentSerializers.DistinctValidationMatchesSavedAgent | src/apps/agents/serializers.py:51-83 | the corrected check accepts exactly the payloads whose saved agent can reach its quorum with the owner and its distinct approvers |
| AgentSerializers.ChecksAgreeOnDistinctApprovers | src/apps/agents/serializers.py:58-65 | for a list with no repetition that leaves out the owner, the written and the corrected checks accept the same payloads |
| AgentSerializers.DistinctElements | src/apps/agents/serializers.py:62 | a list with no repetition has as many entries as it has members |
| AgentSerializers.QueryError | src/apps/agents/serializers.py:87 | no error exactly when the query is present, strips to between 1 and 4000 characters and holds no null character; a query within length holding one gets the null-characters message |
| AgentSerializers.ModelError | src/apps/agents/serializers.py:88 | no error exactly when the model is absent, strips to blank, or strips to at most 128 characters with no null character |
| AgentSerializers.MaxStepsError | src/apps/agents/serializers.py:89 | no error exactly when the step budget is absent or from 1 to 10 |
| AgentSerializers.ValidateAnalysisRequest | src/apps/agents/serializers.py:86-90 | valid exactly when every field is; a valid request holds the stripped query, the stripped model of at most 128 characters when one was sent, the bounded budget and the async flag; the errors name exactly the failing fields, with the required message for a missing query |
| AgentSerializers.HasSigningSecretIffGiven | src/apps/agents/serializers.py:177-178 | a created endpoint reports a signing secret exactly when a non-empty one was given |
| AgentSerializers.LexLessIrreflexive | src/apps/agents/serializers.py:188 | no string sorts before itself |
| AgentSerializers.LexLessTotal | src/apps/agents/serializers.py:188 | of two different strings one sorts before the other |
| AgentSerializers.LexLessTransitive | src/apps/agents/serializers.py:188 | the string order is transitive |
| AgentSerializers.StrictlySortedDistinct | src/apps/agents/serializers.py:188 | a strictly sorted list is ordered between any two positions and holds no element twice |
| AgentSerializers.InsertSorted | src/apps/agents/serializers.py:188 | the result is strictly sorted and holds exactly the element and the list's members |
| AgentSerializers.SortedDistinct | src/apps/agents/serializers.py:188 | strictly sorted and holding exactly the items' members |
| AgentSerializers.Unsupported | src/apps/agents/serializers.py:183-185 | exactly the items that are not accepted event types |
| AgentSerializers.UnsupportedNames | src/apps/agents/serializers.py:185-188 | the unsupported items, each once, in ascending order |
| AgentSerializers.ValidateEventTypes | src/apps/agents/serializers.py:180-190 | accepted unchanged exactly when the value is a list of accepted event types; a non-list gets the list message; otherwise the message names the unsupported items, at least one, each once, sorted |
| AgentSerializers.DefaultEventTypesValid | src/apps/agents/serializers.py:180-190 | the default subscription passes the validator unchanged |
| AgentSerializers.StripIdempotent | src/apps/agents/serializers.py:197 | stripping a stripped key changes nothing |
| AgentSerializers.NamesKeySnoc | src/apps/agents/serializers.py:196-197 | a key is named by a list of pairs exactly when it is named by all but the last pair or by the last one |
| AgentSerializers.HeaderMap | src/apps/agents/serializers.py:195-200 | the keys are exactly the stripped keys of the pairs, each already stripped |
| AgentSerializers.HeaderMapLastWins | src/apps/agents/serializers.py:196-200 | the last pair with a given stripped key decides its value |
| AgentSerializers.HeadersValidated | src/apps/agents/serializers.py:192-201 | accepted exactly for an object with no key that strips to nothing, the value is then `HeaderMap` of the pairs, all keys non-blank and stripped; the two refusals carry their own messages |
| AgentSerializers.HeadersRevalidate | src/apps/agents/serializers.py:192-201 | validating the stored headers again gives the same headers |
| AgentSerializers.ValidateHeaders | src/apps/agents/serializers.py:192-201 | the loop returns what `HeadersValidated` says, stopping at the first blank key |
| Text.NatToStringRoundTrip | src/apps/agents/tasks.py:70 | the decimal rendering of a number reads back as that number |
| Text.NatToStringInjective | src/apps/agents/tasks.py:70 | different numbers never render to the same id string |
| Text.ParseInt | src/apps/approvals/views.py:41-43 | `int` succeeds exactly on a stripped literal of digits with single underscores between them, after an optional sign; the value is that of the digits without the underscores, negated after `-` |
| Text.ParseIntOfNat | src/apps/approvals/views.py:41 | `int` of the decimal rendering of a number gives that number |
| Text.UnderscoreBetweenDigitsIgnored | src/apps/approvals/views.py:41 | `int("1_000")` reads as `int("1000")`: one underscore between digit runs is dropped |
| Text.DoubledUnderscoreRefused | src/apps/approvals/views.py:41-43 | two underscores in a row raise ValueError, so the default threshold applies |
| Text.Lower | src/apps/approvals/services/orchestrator.py:61-68 | same length, each ASCII capital lowered and every other character kept |
| Text.StripEmptyIffAllSpace | src/apps/approvals/services/decision_engine.py:327 | a string strips to "" exactly when all its characters are whitespace |
| Text.StripOfStripped | src/apps/agents/serializers.py:197 | a string without whitespace at either end strips to itself |
| Clock.WholeSeconds | src/apps/approvals/serializers.py:78 | whole seconds of a span truncated toward zero: within one second of the span, on the side of zero, negative exactly for spans of a second or more into the past |

## Left out

- **Strings are ASCII only.** The project does not model Unicode whitespace, Unicode digits
  for `\d` and `isdigit`, or case folding beyond A-Z, because Dafny strings carry no Unicode
  tables.
- **Configuration values are taken as well-typed.** Agent config entries and request
  parameters read through `int(...)` are integers or absent, so the `ValueError` raised by a non-integer
  config value is not modelled. The exception is the due-soon query parameter, where the view
  catches the error; the model covers that.
- **JSON values are taken as already converted.** The `str(...)` and `int(...)` of JSON values
  (callback ids, header values, event type items, `steps_executed`) are taken as already
  converted. A dict `request.data` and stored headers with string values are assumed.
- **One clock reading per operation.** Each operation reads the clock once, except
  `execute`, whose two readings are separate parameters. `_build_payload`'s `occurred_at`
  is inside the opaque payload.
- **No concurrency.** The project does not model concurrency, the `get_or_create` race on
  delivery records, or the `select_for_update` of `append_event`. The code takes no lock
  elsewhere, and the model is sequential.
- **Cryptography and serialization are opaque.**
  - Fernet encryption and decryption are parameters that may fail.
  - The HMAC-SHA256 signature is uninterpreted.
  - Canonical JSON and ISO 8601 rendering are opaque strings.
- **No network.** The network is not modelled: the webhook POST, the Telegram Bot API (including
  `_answer_callback` and the button message itself) and the Kite adapter. Their outcomes are
  parameters.
- **The analyst is an oracle.** The LLM analyst reports events and then returns a result or raises an exception. Its
  tool loop and web research are foreign code.
- **No error isolation in the sweep.** The sweep has no per-request error handling, and
  the model does not claim that one failing request leaves the others untouched.
- **Queued jobs are not consumed.** The execution job that an approval queues is an outbox
  entry, and its consumption is not modelled. The job passes an extra argument that the execution job
  handler does not accept, and `process` would not skip the approval gate for an approved intent.
- **Glue code is not modelled:** `notify_approval_request_task` and `ApprovalNotifier`
  (src/apps/approvals/tasks.py:13-19), `AgentRuntime.run` (its reply is a parameter of
  `run_agent_task`), and `dispatch_analysis_run_notifications_task`. Management commands,
  dashboards, admin, templates, settings and migrations are not modelled either.
- **Header names are case-sensitive.** The `requests` library merges headers without regard to
  case. The model replaces only a key that is written the same way.
- **Assumed models.** `supports_event_type` is taken to be membership in the endpoint's
  `event_types`. The default event types are assumed to be the three terminal events. The
  agents models module shown does not declare either.
  - The two Agent fields `approvers` and `required_approvals` are assumed from their use.
  - So are the run, event, endpoint and delivery tables.
- **Ties are arbitrary.** Among expired requests with the same expiry the sweep may take any
  order. Among Telegram profiles with the same update time the lookup may return any one.
- **A dead branch is omitted.** The decision check of the Telegram view
  (src/apps/approvals/telegram_views.py:66-69) cannot fail after the pattern matched, so the
  model has no branch for it.
- **A not-found reply carries no text.** The 404 of the approval decide view is modelled as a
  status code without its body text.
- **Unused fields pass through.**
  - An agent's instruction, schedule and prediction fields are carried along but never read.
  - So are the request's `risk_snapshot` beyond the score, and the raw Telegram payload.
- Persistence details are not modelled. These are `updated_at` stamps, the fields that `save`
  names in `update_fields`, and the audit rows' timestamps.
- TelegramViews.Post: the profile lookup it runs is the corrected `LinkedProfile`, so a callback
  with a blank Telegram id is answered `unauthorized`. The code as written (`ProfileAsWritten`) acts
  as the user of a profile that was never linked; the Findings table shows both.
- AgentSerializers.QueryError, AgentSerializers.ModelError and ApprovalSerializers.ValidateDecisionInput:
  each failing field carries one message, the first of DRF's error list for that field.
- ApprovalViews.DecideView: the 200 body holds only `decision_outcome`. The serialized request
  beside it is not modelled. The query parameters are narrowed with the operation's one `now`,
  which stands for the clock reading of `filter_queryset` as well.
- **Endpoint text fields are not checked for null characters.** DRF also refuses a null
  character in the webhook endpoint serializer's `name` and `signing_secret`; the endpoint model
  does not.
- AgentSerializers.ValidateAnalysisRequest: a supplied `async_mode` is assumed to be a boolean
  already. DRF's parsing of strings such as `"true"` is not modelled.
- AnalysisNotifications.DispatchForRun: the payload is a parameter rather than
  `_build_payload`'s JSON. The model does not state that the stored `request_payload`
  equals the payload of the latest attempt for records that were only skipped.

## Findings

| source | as written | input that shows it | evidently intended | confidence | as-written member | corrected member |
|---|---|---|---|---|---|---|
| src/apps/approvals/telegram_views.py:71-76 | a callback without `message.chat.id` and `from.id` gives the Telegram id "" (lines 131-138), and the profile lookup filters on that blank id, so it finds a profile that was never linked and acts for that user | a callback `{"id": "cb", "data": "approval:1:approve"}` with no chat and no sender, while some user's profile has an empty `telegram_chat_id` | a blank id finds no profile, so the reply is `unauthorized` | not executed | TelegramViews.BlankIdFindsUnlinkedProfile | TelegramViews.LinkedProfile |
| src/apps/agents/serializers.py:58-65 | the approver count is the length of the submitted list, so a repeated approver is counted twice and an owner listed as approver is counted with the owner as well | quorum 3 with `approvers=[2, 2]` for an agent owned by user 1 passes validation, but the saved agent has one approver besides the owner | compare the quorum with the owner plus the distinct approvers other than the owner | not executed | AgentSerializers.DuplicateApproversPassValidation | AgentSerializers.ValidateApprovalsDistinct |
