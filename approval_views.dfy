/**
 * ApprovalRequestViewSet: which requests a user sees, the `due_soon_seconds` parameter,
 * the query-parameter filters, the queue summary and the HTTP mapping of `decide`.
 */
module ApprovalViews {
  import opened Wrappers
  import opened Clock
  import opened Ids
  import opened Text
  import opened ApprovalModels
  import opened AgentModels
  import opened Store
  import opened DecisionEngine
  import opened ApprovalSerializers

  /** `get_queryset`'s filter: the request's agent is owned by the user or lists the user as an approver. */
  predicate VisibleTo(r: ApprovalRequest, agents: map<AgentId, Agent>, user: UserId) {
    r.agentId in agents && (agents[r.agentId].ownerId == user || user in agents[r.agentId].approvers)
  }

  /** The ids `get_queryset` returns for the user. */
  function VisibleIds(requests: map<RequestId, ApprovalRequest>, agents: map<AgentId, Agent>, user: UserId): (ids: set<RequestId>)
    ensures ids <= requests.Keys
    ensures forall k :: k in requests && VisibleTo(requests[k], agents, user) ==> k in ids
    ensures forall k :: k in ids ==> VisibleTo(requests[k], agents, user)
  {
    set k | k in requests && VisibleTo(requests[k], agents, user)
  }

  /**
   * Every user who sees a request may decide it; for users without the staff or superuser
   * flag it is the other way round too, so nobody ordinary can reach a request `decide`
   * would refuse for lack of permission.
   */
  lemma VisibleMeansEligible(r: ApprovalRequest, agents: map<AgentId, Agent>, user: User)
    requires r.agentId in agents
    ensures VisibleTo(r, agents, user.id) ==> CanUserDecide(Some(user), agents[r.agentId])
    ensures !user.isStaff && !user.isSuperuser ==>
              (VisibleTo(r, agents, user.id) <==> CanUserDecide(Some(user), agents[r.agentId]))
  {
  }

  /**
   * `get_serializer_context`'s `due_soon_seconds`: the query parameter (default "300")
   * read as an integer and raised to at least 1; 300 when it is not an integer.
   */
  function DueSoonSeconds(param: Option<string>): (n: int)
    ensures n >= 1
    ensures param.None? ==> n == DefaultDueSoonSeconds
    ensures param.Some? && ParseInt(param.value).None? ==> n == DefaultDueSoonSeconds
    ensures param.Some? && ParseInt(param.value).Some? ==> n == Max(1, ParseInt(param.value).value)
  {
    match param
    case None => DefaultDueSoonSeconds
    case Some(p) =>
      match ParseInt(p)
      case None => DefaultDueSoonSeconds
      case Some(v) => Max(1, v)
  }

  /** A positive number sent as the parameter is taken as it is. */
  lemma DueSoonOfNumber(n: nat)
    requires n >= 1
    ensures DueSoonSeconds(Some(NatToString(n))) == n
  {
    ParseIntOfNat(n);
  }

  /** `due_soon_seconds=1_000` is read as 1000, as Python's `int` reads it. */
  lemma DueSoonAcceptsUnderscores(x: string, y: string)
    requires IsDigits(x) && IsDigits(y)
    ensures DueSoonSeconds(Some(x + "_" + y)) == DueSoonSeconds(Some(x + y)) == Max(1, DigitsValue(x + y))
  {
    UnderscoreBetweenDigitsIgnored(x, y);
  }

  /** The query parameters `filter_queryset` reads; a missing one is `None`. */
  datatype QueryParams = QueryParams(
    status: Option<string>,
    channel: Option<string>,
    agentId: Option<string>,
    overdue: Option<string>,
    mineOnly: Option<string>)

  /** One `.filter(...)` or `.exclude(...)` applied to the queryset. */
  datatype Narrowing =
    | ByStatus(status: string)
    | ByChannel(channel: string)
    | ByAgent(agentId: AgentId)
    | OverdueOnly(now: Instant)
    | NotOverdue(now: Instant)
    | NotDecidedBy(user: UserId, ds: seq<ApprovalDecision>)

  /** The view's own overdue test: pending with an expiry strictly before `now`. */
  predicate ViewOverdue(r: ApprovalRequest, now: Instant) {
    r.status == Pending && r.expiresAt.Some? && r.expiresAt.value < now
  }

  predicate Keeps(n: Narrowing, r: ApprovalRequest) {
    match n
    case ByStatus(s) => StatusValue(r.status) == s
    case ByChannel(c) => ChannelValue(r.channel) == c
    case ByAgent(a) => r.agentId == a
    case OverdueOnly(now) => ViewOverdue(r, now)
    case NotOverdue(now) => !ViewOverdue(r, now)
    case NotDecidedBy(u, ds) => !HasDecisionBy(ds, r.id, u)
  }

  /** The rows of `qs` a narrowing keeps, in their order. */
  function Narrow(qs: seq<ApprovalRequest>, n: Narrowing): (out: seq<ApprovalRequest>)
    ensures |out| <= |qs|
    ensures forall r :: r in out <==> r in qs && Keeps(n, r)
  {
    if |qs| == 0 then []
    else Narrow(qs[..|qs| - 1], n) + (if Keeps(n, qs[|qs| - 1]) then [qs[|qs| - 1]] else [])
  }

  /** A truthy parameter: present and not the empty string. */
  predicate Given(p: Option<string>) {
    p.Some? && p.value != ""
  }

  /** The narrowings `filter_queryset` applies, in its order, one group per parameter. */
  function NarrowingsFor(params: QueryParams, user: UserId, ds: seq<ApprovalDecision>, now: Instant): seq<Narrowing> {
    FieldNarrowings(params) + FlagNarrowings(params, user, ds, now)
  }

  /** The `status`, `channel` and `agent_id` filters. */
  function FieldNarrowings(params: QueryParams): seq<Narrowing> {
    (if Given(params.status) then [ByStatus(params.status.value)] else [])
    + (if Given(params.channel) then [ByChannel(params.channel.value)] else [])
    + (if Given(params.agentId) && IsDigits(params.agentId.value) then [ByAgent(DigitsValue(params.agentId.value))] else [])
  }

  /** The `overdue` and `mine_only` filters. */
  function FlagNarrowings(params: QueryParams, user: UserId, ds: seq<ApprovalDecision>, now: Instant): seq<Narrowing> {
    (if params.overdue == Some("true") then [OverdueOnly(now)] else [])
    + (if params.overdue == Some("false") then [NotOverdue(now)] else [])
    + (if params.mineOnly == Some("true") then [NotDecidedBy(user, ds)] else [])
  }

  function NarrowAll(qs: seq<ApprovalRequest>, ns: seq<Narrowing>): seq<ApprovalRequest>
    decreases |ns|
  {
    if |ns| == 0 then qs else NarrowAll(Narrow(qs, ns[0]), ns[1..])
  }

  /** What remains after a sequence of narrowings is what every one of them keeps. */
  lemma {:induction false} NarrowAllKeeps(qs: seq<ApprovalRequest>, ns: seq<Narrowing>, r: ApprovalRequest)
    ensures r in NarrowAll(qs, ns) <==> r in qs && forall i :: 0 <= i < |ns| ==> Keeps(ns[i], r)
    decreases |ns|
  {
    if |ns| > 0 {
      NarrowAllKeeps(Narrow(qs, ns[0]), ns[1..], r);
      assert forall i :: 1 <= i < |ns| ==> ns[i] == ns[1..][i - 1];
    }
  }

  /**
   * `filter_queryset`: narrow the queryset by each parameter given, in turn. An `agent_id`
   * that is not all digits, and `overdue` or `mine_only` values other than the ones named,
   * are ignored.
   */
  method FilterQueryset(qs: seq<ApprovalRequest>, params: QueryParams, user: UserId, ds: seq<ApprovalDecision>, now: Instant)
    returns (out: seq<ApprovalRequest>)
    ensures out == NarrowAll(qs, NarrowingsFor(params, user, ds, now))
  {
    out := FilterFields(qs, params);
    NarrowAllAppend(qs, FieldNarrowings(params), FlagNarrowings(params, user, ds, now));
    out := FilterFlags(out, params, user, ds, now);
  }

  /** The first three steps of `filter_queryset`. */
  method FilterFields(qs: seq<ApprovalRequest>, params: QueryParams) returns (out: seq<ApprovalRequest>)
    ensures out == NarrowAll(qs, FieldNarrowings(params))
  {
    ghost var s1 := if Given(params.status) then [ByStatus(params.status.value)] else [];
    ghost var s2 := if Given(params.channel) then [ByChannel(params.channel.value)] else [];
    ghost var s3 := if Given(params.agentId) && IsDigits(params.agentId.value) then [ByAgent(DigitsValue(params.agentId.value))] else [];
    out := qs;
    if Given(params.status) {
      out := Narrow(out, ByStatus(params.status.value));
    }
    assert out == NarrowAll(qs, s1);
    if Given(params.channel) {
      out := Narrow(out, ByChannel(params.channel.value));
    }
    NarrowAllAppend(qs, s1, s2);
    if Given(params.agentId) && IsDigits(params.agentId.value) {
      out := Narrow(out, ByAgent(DigitsValue(params.agentId.value)));
    }
    NarrowAllAppend(qs, s1 + s2, s3);
  }

  /** The last three steps of `filter_queryset`. */
  method FilterFlags(qs: seq<ApprovalRequest>, params: QueryParams, user: UserId, ds: seq<ApprovalDecision>, now: Instant)
    returns (out: seq<ApprovalRequest>)
    ensures out == NarrowAll(qs, FlagNarrowings(params, user, ds, now))
  {
    ghost var s1 := if params.overdue == Some("true") then [OverdueOnly(now)] else [];
    ghost var s2 := if params.overdue == Some("false") then [NotOverdue(now)] else [];
    ghost var s3 := if params.mineOnly == Some("true") then [NotDecidedBy(user, ds)] else [];
    out := qs;
    if params.overdue == Some("true") {
      out := Narrow(out, OverdueOnly(now));
    }
    assert out == NarrowAll(qs, s1);
    if params.overdue == Some("false") {
      out := Narrow(out, NotOverdue(now));
    }
    NarrowAllAppend(qs, s1, s2);
    if params.mineOnly == Some("true") {
      out := Narrow(out, NotDecidedBy(user, ds));
    }
    NarrowAllAppend(qs, s1 + s2, s3);
  }

  lemma {:induction false} NarrowAllAppend(qs: seq<ApprovalRequest>, ns: seq<Narrowing>, ms: seq<Narrowing>)
    ensures NarrowAll(qs, ns + ms) == NarrowAll(NarrowAll(qs, ns), ms)
    decreases |ns|
  {
    if |ns| > 0 {
      assert (ns + ms)[0] == ns[0] && (ns + ms)[1..] == ns[1..] + ms;
      NarrowAllAppend(Narrow(qs, ns[0]), ns[1..], ms);
    } else {
      assert ns + ms == ms;
    }
  }

  /** `overdue=true` and `overdue=false` split any queryset between them. */
  lemma {:induction false} OverdueFiltersPartition(qs: seq<ApprovalRequest>, now: Instant)
    ensures |Narrow(qs, OverdueOnly(now))| + |Narrow(qs, NotOverdue(now))| == |qs|
    decreases |qs|
  {
    if |qs| > 0 {
      OverdueFiltersPartition(qs[..|qs| - 1], now);
    }
  }

  /**
   * The view's overdue test is strict: a pending request expiring exactly at `now` is not
   * overdue for the filter and the summary, though the serializer flags it overdue and
   * the expiry sweep selects it.
   */
  lemma ExpiringNowIsNotViewOverdue(r: ApprovalRequest, now: Instant)
    requires r.status == Pending && r.expiresAt == Some(now)
    ensures !ViewOverdue(r, now) && IsOverdue(r, now)
  {
  }

  /** The four counters of the queue summary. */
  datatype QueueSummary = QueueSummary(pendingCount: nat, overdueCount: nat, dueSoonCount: nat, minePendingCount: nat)

  /** The summary's due-soon test: expiry within `[now, now + dueSoon seconds]`. */
  predicate DueSoonAt(r: ApprovalRequest, now: Instant, dueSoon: int) {
    r.expiresAt.Some? && now <= r.expiresAt.value <= now + Seconds(dueSoon)
  }

  function CountDueSoon(qs: seq<ApprovalRequest>, now: Instant, dueSoon: int): (n: nat)
    ensures n <= |qs|
  {
    if |qs| == 0 then 0
    else CountDueSoon(qs[..|qs| - 1], now, dueSoon) + (if DueSoonAt(qs[|qs| - 1], now, dueSoon) then 1 else 0)
  }

  /**
   * `queue`: over the filtered queryset narrowed to pending requests, the number of them,
   * how many are overdue, how many fall due within `due_soon_seconds`, and how many the
   * user has not decided yet.
   */
  function Summary(filtered: seq<ApprovalRequest>, user: UserId, ds: seq<ApprovalDecision>, now: Instant, dueSoon: int)
    : (s: QueueSummary)
    ensures s.pendingCount <= |filtered|
    ensures s.pendingCount == 0 <==> forall r :: r in filtered ==> r.status != Pending
    ensures s.overdueCount <= s.pendingCount && s.dueSoonCount <= s.pendingCount && s.minePendingCount <= s.pendingCount
  {
    var pending := Narrow(filtered, ByStatus("pending"));
    assert |pending| > 0 ==> pending[0] in pending;
    assert forall r :: r in filtered && r.status == Pending ==> r in pending;
    QueueSummary(|pending|, |Narrow(pending, OverdueOnly(now))|, CountDueSoon(pending, now, dueSoon),
                 |Narrow(pending, NotDecidedBy(user, ds))|)
  }

  /** An overdue request is not due soon: the two tests are split at `now`. */
  lemma {:induction false} OverdueAndDueSoonDisjoint(qs: seq<ApprovalRequest>, now: Instant, dueSoon: int)
    ensures |Narrow(qs, OverdueOnly(now))| + CountDueSoon(qs, now, dueSoon) <= |qs|
    decreases |qs|
  {
    if |qs| > 0 {
      OverdueAndDueSoonDisjoint(qs[..|qs| - 1], now, dueSoon);
    }
  }

  /**
   * The summary's counters are bounded by the pending count, overdue and due-soon never
   * overlap, and the overdue count is what the `overdue=true` filter would return.
   */
  lemma SummaryBounds(filtered: seq<ApprovalRequest>, user: UserId, ds: seq<ApprovalDecision>, now: Instant, dueSoon: int)
    ensures var s := Summary(filtered, user, ds, now, dueSoon);
            && s.pendingCount <= |filtered|
            && s.overdueCount + s.dueSoonCount <= s.pendingCount
            && s.minePendingCount <= s.pendingCount
            && s.overdueCount == |Narrow(Narrow(filtered, ByStatus("pending")), OverdueOnly(now))|
  {
    OverdueAndDueSoonDisjoint(Narrow(filtered, ByStatus("pending")), now, dueSoon);
  }

  /** The HTTP answer of the `decide` action. */
  datatype DecideBody =
    | NotFound
    | InvalidInput(errors: map<string, string>)
    | Detail(detail: string)
    | Decided(isFinal: bool, approvedCount: nat, requiredApprovals: nat)

  datatype DecideResponse = DecideResponse(code: int, body: DecideBody)

  /** The mapping of the decision service's errors: a conflict or a duplicate is 400, a permission error 403. */
  function ErrorResponse(e: DecideError): (resp: DecideResponse)
    ensures resp.code == 403 <==> e == PermissionDenied
    ensures resp.code == 400 <==> e != PermissionDenied
    ensures resp.body == Detail(DecideErrorMessage(e))
  {
    DecideResponse(if e == PermissionDenied then 403 else 400, Detail(DecideErrorMessage(e)))
  }

  /** The three error messages are distinct, so a client can tell the two 400 answers apart. */
  lemma ErrorMessagesDistinct(a: DecideError, b: DecideError)
    ensures ErrorResponse(a) == ErrorResponse(b) ==> a == b
  {
  }

  /**
   * `get_object` of a detail action: the request is in the user's queryset and passes every
   * narrowing `filter_queryset` applies for the request's query parameters.
   */
  predicate ObjectFound(requests: map<RequestId, ApprovalRequest>, agents: map<AgentId, Agent>, user: UserId,
                        params: QueryParams, ds: seq<ApprovalDecision>, now: Instant, id: RequestId)
  {
    var ns := NarrowingsFor(params, user, ds, now);
    id in VisibleIds(requests, agents, user) && forall i :: 0 <= i < |ns| ==> Keeps(ns[i], requests[id])
  }

  /**
   * The lookup `get_object` runs: the filters on the one row with the requested key. The
   * row survives exactly when the request is found.
   */
  method GetObject(requests: map<RequestId, ApprovalRequest>, agents: map<AgentId, Agent>, user: UserId,
                   params: QueryParams, ds: seq<ApprovalDecision>, now: Instant, id: RequestId)
    returns (found: bool)
    ensures found <==> ObjectFound(requests, agents, user, params, ds, now, id)
  {
    if id !in VisibleIds(requests, agents, user) {
      return false;
    }
    var r := requests[id];
    var ns := NarrowingsFor(params, user, ds, now);
    var rows := FilterQueryset([r], params, user, ds, now);
    NarrowAllKeeps([r], ns, r);
    if rows != [] {
      NarrowAllKeeps([r], ns, rows[0]);
    }
    found := rows != [];
  }

  /** Without query parameters `get_object` finds exactly the requests the user sees. */
  lemma NoParamsFindsVisible(requests: map<RequestId, ApprovalRequest>, agents: map<AgentId, Agent>, user: UserId,
                             ds: seq<ApprovalDecision>, now: Instant, id: RequestId)
    ensures var none := QueryParams(None, None, None, None, None);
            ObjectFound(requests, agents, user, none, ds, now, id) <==> id in VisibleIds(requests, agents, user)
  {
    var none := QueryParams(None, None, None, None, None);
    assert NarrowingsFor(none, user, ds, now) == [];
  }

  /** A `status` parameter naming another status hides the request, so `decide` answers 404. */
  lemma StatusFilterHides(requests: map<RequestId, ApprovalRequest>, agents: map<AgentId, Agent>, user: UserId,
                          params: QueryParams, ds: seq<ApprovalDecision>, now: Instant, id: RequestId)
    requires id in requests && Given(params.status) && params.status.value != StatusValue(requests[id].status)
    ensures !ObjectFound(requests, agents, user, params, ds, now, id)
  {
    assert NarrowingsFor(params, user, ds, now)[0] == ByStatus(params.status.value);
  }

  /**
   * With `mine_only=true` a request the user has already voted on is not found, so `decide`
   * answers 404 rather than the duplicate-vote 400.
   */
  lemma MineOnlyHidesDecided(requests: map<RequestId, ApprovalRequest>, agents: map<AgentId, Agent>, user: UserId,
                             params: QueryParams, ds: seq<ApprovalDecision>, now: Instant, id: RequestId)
    requires id in requests && requests[id].id == id && params.mineOnly == Some("true") && HasDecisionBy(ds, id, user)
    ensures !ObjectFound(requests, agents, user, params, ds, now, id)
  {
    var ns := NarrowingsFor(params, user, ds, now);
    assert ns[|ns| - 1] == NotDecidedBy(user, ds);
  }

  /** The body of a successful decision: the outcome `decide` returned. */
  function DecidedBody(o: DecisionOutcome): DecideBody {
    Decided(o.isFinal, o.approvedCount, o.requiredApprovals)
  }

  /**
   * `decide` (the view action). A request `get_object` does not find under the query
   * parameters is a 404; an invalid body is a 400 with the field errors; otherwise the
   * decision service runs with the user as actor and a missing reason as "". A conflict or
   * a duplicate vote is a 400 and a permission error a 403, each with its fixed message and
   * no write; a recorded vote is a 200 carrying the final flag, the approve count after the
   * vote and the quorum.
   */
  method DecideView(db: Database, requestId: RequestId, user: User, params: QueryParams,
                    decision: Option<string>, reason: Option<string>, channel: Option<string>, now: Instant)
    returns (resp: DecideResponse)
    requires db.ApprovalsValid()
    modifies db`requests, db`decisions, db`intents, db`executionQueue
    ensures db.ApprovalsValid()
    ensures !ObjectFound(old(db.requests), db.agents, user.id, params, old(db.decisions), now, requestId) ==>
              resp == DecideResponse(404, NotFound) && unchanged(db)
    ensures ObjectFound(old(db.requests), db.agents, user.id, params, old(db.decisions), now, requestId)
            && ValidateDecisionInput(decision, reason, channel).Err? ==>
              resp == DecideResponse(400, InvalidInput(ValidateDecisionInput(decision, reason, channel).error))
              && unchanged(db)
    ensures ObjectFound(old(db.requests), db.agents, user.id, params, old(db.decisions), now, requestId)
            && ValidateDecisionInput(decision, reason, channel).Ok? ==>
              var v := ValidateDecisionInput(decision, reason, channel).value;
              var r := old(db.requests[requestId]);
              var e := GuardError(r, db.agents[r.agentId], old(db.decisions), Some(user));
              && (e.Some? ==> resp == ErrorResponse(e.value) && unchanged(db))
              && (e.None? ==>
                    var count := ApprovedCount(db.decisions, requestId);
                    var status := VoteStatus(v.decision, count, Quorum(r));
                    var outcome := DecisionOutcome(status, status != Pending, count, Quorum(r));
                    && resp == DecideResponse(200, DecidedBody(outcome))
                    && VoteApplied(db, requestId, user.id, v.decision, v.channel, v.reason.GetOr(""), NoMetadata, now,
                                   outcome, old(db.requests), old(db.decisions), old(db.intents), old(db.executionQueue)))
  {
    var found := GetObject(db.requests, db.agents, user.id, params, db.decisions, now, requestId);
    if !found {
      return DecideResponse(404, NotFound);
    }
    var input := ValidateDecisionInput(decision, reason, channel);
    if input.Err? {
      return DecideResponse(400, InvalidInput(input.error));
    }
    var v := input.value;
    var result := Decide(db, requestId, Some(user), v.decision, v.channel, v.reason.GetOr(""), NoMetadata, now);
    match result
    case Err(e) =>
      resp := ErrorResponse(e);
    case Ok(outcome) =>
      resp := DecideResponse(200, DecidedBody(outcome));
  }
}
