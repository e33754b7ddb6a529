/**
 * ApprovalRequestSerializer's derived fields (approvals still missing, overdue flag,
 * seconds to expiry, queue bucket) and the input rules of ApprovalDecisionInputSerializer.
 */
module ApprovalSerializers {
  import opened Wrappers
  import opened Clock
  import opened Text
  import opened ApprovalModels
  import opened DecisionEngine
  import ApprovalTasks

  /** `get_pending_approvals`: how many approvals are still missing, never negative. */
  function PendingApprovals(r: ApprovalRequest, ds: seq<ApprovalDecision>): (n: nat)
    ensures n + ApprovedCount(ds, r.id) >= r.requiredApprovals
    ensures n > 0 ==> n + ApprovedCount(ds, r.id) == r.requiredApprovals
    ensures n == 0 <==> ApprovedCount(ds, r.id) >= r.requiredApprovals
  {
    var remaining := r.requiredApprovals - ApprovedCount(ds, r.id);
    if remaining > 0 then remaining else 0
  }

  /**
   * For a request with at least one required approval (every request `create_request`
   * builds), nothing is missing exactly when the approve count reaches the quorum
   * `decide` finalizes on.
   */
  lemma NothingPendingIffQuorum(r: ApprovalRequest, ds: seq<ApprovalDecision>)
    requires r.requiredApprovals >= 1
    ensures PendingApprovals(r, ds) == 0 <==> ApprovedCount(ds, r.id) >= Quorum(r)
  {
  }

  /** `get_is_overdue`: a pending request with an expiry that is not after `now`. */
  predicate IsOverdue(r: ApprovalRequest, now: Instant) {
    r.expiresAt.Some? && r.status == Pending && r.expiresAt.value <= now
  }

  /** The overdue flag marks exactly the requests the expiry sweep selects from. */
  lemma OverdueIsSweepFilter(r: ApprovalRequest, now: Instant)
    ensures IsOverdue(r, now) <==> ApprovalTasks.IsExpired(r, now)
  {
  }

  /** `get_seconds_to_expiry`: the whole seconds left, truncated toward zero; `None` without an expiry. */
  function SecondsToExpiry(r: ApprovalRequest, now: Instant): (s: Option<int>)
    ensures s.None? <==> r.expiresAt.None?
    ensures s.Some? && r.expiresAt.value >= now ==> Seconds(s.value) <= r.expiresAt.value - now < Seconds(s.value + 1)
    ensures s.Some? && r.expiresAt.value < now ==> Seconds(s.value - 1) < r.expiresAt.value - now <= Seconds(s.value)
  {
    match r.expiresAt
    case None => None
    case Some(e) => Some(WholeSeconds(e - now))
  }

  datatype QueueBucket = Closed | NoExpiry | Overdue | DueSoon | Normal

  function QueueBucketValue(b: QueueBucket): string {
    match b
    case Closed => "closed"
    case NoExpiry => "no_expiry"
    case Overdue => "overdue"
    case DueSoon => "due_soon"
    case Normal => "normal"
  }

  const DefaultDueSoonSeconds: int := 300

  /**
   * `get_queue_bucket`, with `dueSoon` the `due_soon_seconds` of the serializer context
   * (300 when the context has none). The guards are taken in order: closed, no expiry,
   * overdue, due soon, normal.
   */
  function Bucket(r: ApprovalRequest, now: Instant, dueSoon: Option<int>): (b: QueueBucket)
    ensures b == Closed <==> r.status != Pending
    ensures b == NoExpiry <==> r.status == Pending && r.expiresAt.None?
    ensures b == Overdue <==> r.status == Pending && r.expiresAt.Some? && SecondsToExpiry(r, now).value < 0
    ensures b == DueSoon <==>
              r.status == Pending && r.expiresAt.Some?
              && 0 <= SecondsToExpiry(r, now).value <= dueSoon.GetOr(DefaultDueSoonSeconds)
    ensures b == Normal <==>
              r.status == Pending && r.expiresAt.Some? && SecondsToExpiry(r, now).value >= 0
              && SecondsToExpiry(r, now).value > dueSoon.GetOr(DefaultDueSoonSeconds)
  {
    if r.status != Pending then Closed
    else
      var seconds := SecondsToExpiry(r, now);
      if seconds.None? then NoExpiry
      else if seconds.value < 0 then Overdue
      else if seconds.value <= dueSoon.GetOr(DefaultDueSoonSeconds) then DueSoon
      else Normal
  }

  /**
   * A pending request lands in the overdue bucket exactly when it expired at least a whole
   * second ago: the truncation of the seconds count hides the last second.
   */
  lemma OverdueBucketIffSecondPast(r: ApprovalRequest, now: Instant, dueSoon: Option<int>)
    requires r.status == Pending && r.expiresAt.Some?
    ensures Bucket(r, now, dueSoon) == Overdue <==> r.expiresAt.value <= now - MicrosPerSecond
  {
  }

  /**
   * The bucket and the overdue flag of one response disagree for a request that expired
   * less than a second ago: the flag says overdue while the bucket says due soon (for any
   * non-negative threshold). Every request in the overdue bucket is flagged overdue.
   */
  lemma BucketAndFlagAgreeUpToOneSecond(r: ApprovalRequest, now: Instant, dueSoon: Option<int>)
    requires dueSoon.GetOr(DefaultDueSoonSeconds) >= 0
    ensures Bucket(r, now, dueSoon) == Overdue ==> IsOverdue(r, now)
    ensures IsOverdue(r, now) && Bucket(r, now, dueSoon) != Overdue <==>
              r.status == Pending && r.expiresAt.Some? && now - MicrosPerSecond < r.expiresAt.value <= now
    ensures IsOverdue(r, now) && Bucket(r, now, dueSoon) != Overdue ==> Bucket(r, now, dueSoon) == DueSoon
  {
  }

  /** The validated body of a decide request. */
  datatype DecisionInput = DecisionInput(decision: DecisionType, reason: Option<string>, channel: ApprovalChannel)

  const RequiredMessage: string := "This field is required."

  function InvalidChoiceMessage(input: string): string {
    "\"" + input + "\" is not a valid choice."
  }

  /**
   * `ApprovalDecisionInputSerializer(data=...).is_valid()`: `decision` is required and must
   * be approve or reject; `channel` must be dashboard, admin or telegram and defaults to
   * dashboard; `reason` is optional, may be blank, is stripped of surrounding whitespace
   * and, like every CharField, may not hold a null character. The errors map each failing
   * field to its message.
   */
  function ValidateDecisionInput(decision: Option<string>, reason: Option<string>, channel: Option<string>)
    : (r: Result<DecisionInput, map<string, string>>)
    ensures r.Ok? <==> decision.Some? && ParseDecision(decision.value).Some?
                       && (channel.None? || ParseChannel(channel.value).Some?)
                       && (reason.None? || !HasNullCharacter(Strip(reason.value)))
    ensures r.Ok? ==> DecisionValue(r.value.decision) == decision.value
    ensures r.Ok? ==> (channel.None? ==> r.value.channel == Dashboard)
                      && (channel.Some? ==> ChannelValue(r.value.channel) == channel.value)
    ensures r.Ok? ==> r.value.reason.Some? == reason.Some?
                      && (reason.Some? ==> r.value.reason.value == Strip(reason.value))
    ensures r.Err? ==> ("reason" in r.error <==> reason.Some? && HasNullCharacter(Strip(reason.value)))
    ensures r.Err? && "reason" in r.error ==> r.error["reason"] == NullCharactersMessage
    ensures r.Err? ==> ("decision" in r.error <==> decision.None? || ParseDecision(decision.value).None?)
    ensures r.Err? ==> ("channel" in r.error <==> channel.Some? && ParseChannel(channel.value).None?)
    ensures r.Err? && decision.None? ==> r.error["decision"] == RequiredMessage
    ensures r.Err? && decision.Some? && ParseDecision(decision.value).None? ==>
              r.error["decision"] == InvalidChoiceMessage(decision.value)
    ensures r.Err? && channel.Some? && ParseChannel(channel.value).None? ==>
              r.error["channel"] == InvalidChoiceMessage(channel.value)
  {
    var d := if decision.None? then None else ParseDecision(decision.value);
    var c := if channel.None? then Some(Dashboard) else ParseChannel(channel.value);
    var reasonOk := reason.None? || !HasNullCharacter(Strip(reason.value));
    if d.Some? && c.Some? && reasonOk then
      Ok(DecisionInput(d.value, if reason.None? then None else Some(Strip(reason.value)), c.value))
    else
      var decisionErrors: map<string, string> :=
        if d.Some? then map[] else map["decision" := if decision.None? then RequiredMessage else InvalidChoiceMessage(decision.value)];
      var channelErrors: map<string, string> :=
        if c.Some? then map[] else map["channel" := InvalidChoiceMessage(channel.value)];
      var reasonErrors: map<string, string> :=
        if reasonOk then map[] else map["reason" := NullCharactersMessage];
      Err(decisionErrors + reasonErrors + channelErrors)
  }

  /**
   * Every decision and channel a client can name is accepted and read back as itself, with
   * any reason free of null characters.
   */
  lemma ValidInputRoundTrip(d: DecisionType, reason: Option<string>, c: ApprovalChannel)
    requires reason.None? || !HasNullCharacter(Strip(reason.value))
    ensures ValidateDecisionInput(Some(DecisionValue(d)), reason, Some(ChannelValue(c))).Ok?
    ensures var v := ValidateDecisionInput(Some(DecisionValue(d)), reason, Some(ChannelValue(c))).value;
            v.decision == d && v.channel == c
  {
  }
}
