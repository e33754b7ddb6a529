/**
 * TelegramWebhookView: secret check, callback dedup, parsing of the button data, the
 * linked-account lookup and the decision made on the user's behalf.
 */
module TelegramViews {
  import opened Wrappers
  import opened Clock
  import opened Ids
  import opened Text
  import opened ApprovalModels
  import opened AgentModels
  import opened Store
  import opened DecisionEngine
  import EM = ExecutionModels

  /** `_is_valid_secret`: a configured secret, matched by the path segment and by the header token. */
  predicate IsValidSecret(configured: string, pathSecret: string, headerToken: Option<string>): (r: bool)
    ensures r <==> configured != "" && pathSecret == configured && headerToken == Some(configured)
  {
    configured != "" && pathSecret == configured && headerToken.GetOr("") == configured
  }

  /** Without a configured secret every call is refused, whatever it sends. */
  lemma UnconfiguredSecretRefusesAll(pathSecret: string, headerToken: Option<string>)
    ensures !IsValidSecret("", pathSecret, headerToken)
  {
  }

  /** An accepted call carried the configured secret in both places, so neither was blank. */
  lemma AcceptedCallCarriesSecret(configured: string, pathSecret: string, headerToken: Option<string>)
    requires IsValidSecret(configured, pathSecret, headerToken)
    ensures headerToken == Some(configured) && pathSecret != ""
  {
  }

  const CallbackPrefix: string := "approval:"

  /** What `CALLBACK_PATTERN` captures: the digits of the approval id and the decision word. */
  datatype CallbackMatch = CallbackMatch(digits: string, decision: DecisionType)

  /** The text a match stands for, without the optional final newline. */
  function MatchText(m: CallbackMatch): string {
    CallbackPrefix + m.digits + ":" + DecisionValue(m.decision)
  }

  function EndsWith(s: string, suffix: string): bool {
    |suffix| <= |s| && s[|s| - |suffix|..] == suffix
  }

  /** The part after the prefix, once an optional final newline is dropped: digits, a colon, the word. */
  function MatchTail(t: string): (r: Option<CallbackMatch>)
    ensures r.Some? ==> IsDigits(r.value.digits) && t == r.value.digits + ":" + DecisionValue(r.value.decision)
  {
    if EndsWith(t, ":approve") && IsDigits(t[..|t| - 8]) then
      assert t == t[..|t| - 8] + t[|t| - 8..];
      Some(CallbackMatch(t[..|t| - 8], Approve))
    else if EndsWith(t, ":reject") && IsDigits(t[..|t| - 7]) then
      assert t == t[..|t| - 7] + t[|t| - 7..];
      Some(CallbackMatch(t[..|t| - 7], Reject))
    else None
  }

  /** The string without one final newline, if it ends in one. */
  function DropFinalNewline(s: string): (r: string)
    ensures s == r || s == r + "\n"
  {
    if |s| > 0 && s[|s| - 1] == '\n' then
      assert s == s[..|s| - 1] + "\n";
      s[..|s| - 1]
    else s
  }

  lemma DropFinalNewlineOf(t: string, newline: bool)
    requires |t| > 0 && t[|t| - 1] != '\n'
    ensures DropFinalNewline(t + (if newline then "\n" else "")) == t
  {
    if newline {
      assert (t + "\n")[..|t|] == t;
    } else {
      assert t + "" == t;
    }
  }

  /**
   * `CALLBACK_PATTERN.match(data)` for `^approval:(\d+):(approve|reject)$`. Python's `$`
   * also matches before a single newline that ends the string, so that one is allowed.
   */
  function ParseCallback(data: string): (r: Option<CallbackMatch>)
    ensures r.Some? ==> IsDigits(r.value.digits)
    ensures r.Some? ==> data == MatchText(r.value) || data == MatchText(r.value) + "\n"
  {
    if !StartsWith(data, CallbackPrefix) then None
    else
      var body := data[|CallbackPrefix|..];
      assert data == CallbackPrefix + body;
      MatchTail(DropFinalNewline(body))
  }

  /** The tail of every string of the pattern's form is split back into its digits and word. */
  lemma MatchTailComplete(digits: string, d: DecisionType)
    requires IsDigits(digits)
    ensures MatchTail(digits + ":" + DecisionValue(d)) == Some(CallbackMatch(digits, d))
  {
    var t := digits + ":" + DecisionValue(d);
    if d == Approve {
      assert t[|t| - 8..] == ":approve" && t[..|t| - 8] == digits;
    } else {
      assert t[|t| - 7..] == ":reject" && t[..|t| - 7] == digits;
      assert !EndsWith(t, ":approve") by {
        assert t[|t| - 1] == 't';
      }
    }
  }

  /** Every string of the pattern's form is matched, with the digits and the word it holds. */
  lemma ParseCallbackComplete(digits: string, d: DecisionType, newline: bool)
    requires IsDigits(digits)
    ensures ParseCallback(MatchText(CallbackMatch(digits, d)) + (if newline then "\n" else ""))
            == Some(CallbackMatch(digits, d))
  {
    MatchTailComplete(digits, d);
    var t := digits + ":" + DecisionValue(d);
    var tail := t + (if newline then "\n" else "");
    var data := CallbackPrefix + tail;
    assert MatchText(CallbackMatch(digits, d)) + (if newline then "\n" else "") == data;
    assert data[..|CallbackPrefix|] == CallbackPrefix;
    assert data[|CallbackPrefix|..] == tail;
    assert t[|t| - 1] == DecisionValue(d)[|DecisionValue(d)| - 1];
    DropFinalNewlineOf(t, newline);
  }

  /**
   * The button data `send_approval_request` attaches to a request's Approve and Reject
   * buttons: `approval:{id}:approve` and `approval:{id}:reject`.
   */
  function ButtonData(id: RequestId, d: DecisionType): string {
    CallbackPrefix + NatToString(id) + ":" + DecisionValue(d)
  }

  /** The data of each button parses back to the request id and the decision it was built for. */
  lemma ButtonDataRoundTrip(id: RequestId, d: DecisionType)
    ensures ParseCallback(ButtonData(id, d)).Some?
    ensures DigitsValue(ParseCallback(ButtonData(id, d)).value.digits) == id
    ensures ParseCallback(ButtonData(id, d)).value.decision == d
  {
    ParseCallbackComplete(NatToString(id), d, false);
    assert ButtonData(id, d) + "" == ButtonData(id, d);
    NatToStringRoundTrip(id);
  }

  /**
   * The `callback_query` object, as far as the view reads it: `id` and `data` already
   * stringified (absent is ""), and the ids of `message.chat` and `from` when present.
   */
  datatype CallbackQuery = CallbackQuery(id: string, data: string, messageChatId: Option<string>, fromId: Option<string>)

  /** `_extract_telegram_user_id`: the chat id of the message, else the sender's id, else "". */
  function ExtractTelegramUserId(q: CallbackQuery): (tid: string)
    ensures q.messageChatId.Some? ==> tid == q.messageChatId.value
    ensures q.messageChatId.None? && q.fromId.Some? ==> tid == q.fromId.value
    ensures q.messageChatId.None? && q.fromId.None? ==> tid == ""
  {
    match q.messageChatId
    case Some(c) => c
    case None => q.fromId.GetOr("")
  }

  /**
   * The profile lookup as the view writes it: among the profiles whose `telegram_chat_id`
   * equals the id, the most recently updated one (of equally recent ones, the earliest
   * stored).
   */
  function ProfileAsWritten(profiles: seq<UserProfile>, tid: string): (p: Option<UserProfile>)
    ensures p.None? <==> forall i :: 0 <= i < |profiles| ==> profiles[i].telegramChatId != tid
    ensures p.Some? ==> p.value in profiles && p.value.telegramChatId == tid
    ensures p.Some? ==> forall i :: 0 <= i < |profiles| && profiles[i].telegramChatId == tid ==>
              profiles[i].updatedAt <= p.value.updatedAt
  {
    if |profiles| == 0 then None
    else
      var n := |profiles| - 1;
      var rest := ProfileAsWritten(profiles[..n], tid);
      var last := profiles[n];
      assert forall i :: 0 <= i < n ==> profiles[i] == profiles[..n][i];
      if last.telegramChatId != tid then rest
      else if rest.None? || rest.value.updatedAt < last.updatedAt then Some(last)
      else rest
  }

  /**
   * A profile never linked to Telegram keeps the blank default chat id, and a callback
   * carrying neither a message chat nor a sender yields the blank user id: the lookup as
   * written then acts as that unlinked user.
   */
  lemma BlankIdFindsUnlinkedProfile(u: User, at: Instant)
    ensures var q := CallbackQuery("cb", ButtonData(0, Approve), None, None);
            var profiles := [UserProfile(u, "", at)];
            ExtractTelegramUserId(q) == "" && ProfileAsWritten(profiles, ExtractTelegramUserId(q)) == Some(profiles[0])
  {
  }

  /** The lookup with the blank id excluded: only a linked profile can act through Telegram. */
  function LinkedProfile(profiles: seq<UserProfile>, tid: string): (p: Option<UserProfile>)
    ensures p.Some? ==> p.value.telegramChatId == tid && tid != "" && p.value in profiles
    ensures tid != "" ==> p == ProfileAsWritten(profiles, tid)
    ensures tid == "" ==> p.None?
  {
    if tid == "" then None else ProfileAsWritten(profiles, tid)
  }

  /** How far the call gets before the decision, and what it found on the way. */
  datatype Stage =
    | BadSecret
    | NoCallback
    | AlreadySeen
    | Unsupported
    | Unlinked(decision: DecisionType)
    | NotOwned(decision: DecisionType)
    | ToDecide(requestId: RequestId, user: User, decision: DecisionType)

  /**
   * The branches of `post` up to the call of `decide`, in their order: the secret, a
   * callback object with a non-blank id, the dedup table, the pattern, the linked profile,
   * and a request of an agent that profile's user owns. The profile is found with the
   * corrected `LinkedProfile`, which refuses the blank Telegram id; `ProfileAsWritten` is the
   * lookup the view runs.
   */
  function StageFor(secretOk: bool, body: Option<CallbackQuery>, events: seq<TelegramCallbackEvent>,
                    profiles: seq<UserProfile>, requests: map<RequestId, ApprovalRequest>,
                    agents: map<AgentId, Agent>): Stage
  {
    if !secretOk then BadSecret
    else if body.None? || body.value.id == "" then NoCallback
    else if HasCallbackId(events, body.value.id) then AlreadySeen
    else
      var q := body.value;
      match ParseCallback(q.data)
      case None => Unsupported
      case Some(m) =>
        var profile := LinkedProfile(profiles, ExtractTelegramUserId(q));
        if profile.None? then Unlinked(m.decision)
        else
          var rid := DigitsValue(m.digits);
          if rid in requests && requests[rid].agentId in agents && agents[requests[rid].agentId].ownerId == profile.value.user.id
          then ToDecide(rid, profile.value.user, m.decision)
          else NotOwned(m.decision)
  }

  /** Stages after which the view writes a TelegramCallbackEvent. */
  predicate Records(st: Stage) {
    !(st.BadSecret? || st.NoCallback? || st.AlreadySeen?)
  }

  /** The TelegramCallbackEvent row written at a recording stage. */
  function EventFor(q: CallbackQuery, st: Stage): TelegramCallbackEvent {
    TelegramCallbackEvent(
      q.id,
      if st.ToDecide? then Some(st.requestId) else None,
      ExtractTelegramUserId(q),
      if st.Unlinked? || st.NotOwned? || st.ToDecide? then Some(st.decision) else None)
  }

  /**
   * The request reached for a decision belongs to an agent its user owns, so `decide`
   * never refuses it for lack of permission. The user's profile is linked to a non-blank
   * Telegram id because the stage uses the corrected lookup.
   */
  lemma DecidingUserIsOwner(secretOk: bool, body: Option<CallbackQuery>, events: seq<TelegramCallbackEvent>,
                            profiles: seq<UserProfile>, requests: map<RequestId, ApprovalRequest>,
                            agents: map<AgentId, Agent>)
    requires StageFor(secretOk, body, events, profiles, requests, agents).ToDecide?
    ensures var st := StageFor(secretOk, body, events, profiles, requests, agents);
            && st.requestId in requests && requests[st.requestId].agentId in agents
            && CanUserDecide(Some(st.user), agents[requests[st.requestId].agentId])
            && exists i :: 0 <= i < |profiles| && profiles[i].user == st.user && profiles[i].telegramChatId != ""
  {
    var q := body.value;
    var profile := LinkedProfile(profiles, ExtractTelegramUserId(q));
    var i :| 0 <= i < |profiles| && profiles[i] == profile.value;
  }

  /**
   * Replaying a callback after the view recorded it is answered as a duplicate: once the
   * row is stored, the same callback id never gets past the dedup check again.
   */
  lemma ReplayIsDuplicate(secretOk: bool, q: CallbackQuery, events: seq<TelegramCallbackEvent>,
                          profiles: seq<UserProfile>, requests: map<RequestId, ApprovalRequest>,
                          agents: map<AgentId, Agent>,
                          profiles': seq<UserProfile>, requests': map<RequestId, ApprovalRequest>,
                          agents': map<AgentId, Agent>)
    requires Records(StageFor(secretOk, Some(q), events, profiles, requests, agents))
    ensures var e := EventFor(q, StageFor(secretOk, Some(q), events, profiles, requests, agents));
            StageFor(secretOk, Some(q), events + [e], profiles', requests', agents') == AlreadySeen
  {
    var e := EventFor(q, StageFor(secretOk, Some(q), events, profiles, requests, agents));
    assert (events + [e])[|events|] == e;
  }

  /** The JSON answer of the webhook. */
  datatype WebhookResponse =
    | Forbidden
    | Ignored
    | Duplicate
    | Unauthorized
    | NotFound
    | AlreadyDecided
    | Processed(callbackEventId: nat)
    | Crashed(error: DecideError)

  /** The HTTP status: 403 for a bad secret, 500 for an error the view lets escape, 200 otherwise. */
  function ResponseCode(r: WebhookResponse): int {
    match r
    case Forbidden => 403
    case Crashed(_) => 500
    case _ => 200
  }

  /**
   * `TelegramWebhookView.post`. `configured` is the TELEGRAM_WEBHOOK_SECRET setting,
   * `pathSecret` the URL segment, `headerToken` the X-Telegram-Bot-Api-Secret-Token header,
   * `body` the callback object (`None` when missing or not an object) and `now` the clock
   * reading `decide` takes. A callback event gets the position of its row as its id. The
   * decision service's duplicate-vote error is not caught by the view and escapes as a
   * server error after the callback row is written.
   */
  method Post(db: Database, configured: string, pathSecret: string, headerToken: Option<string>,
              body: Option<CallbackQuery>, now: Instant)
    returns (resp: WebhookResponse)
    requires db.ApprovalsValid()
    modifies db`callbackEvents, db`requests, db`decisions, db`intents, db`executionQueue
    ensures db.ApprovalsValid()
    ensures var st := StageFor(IsValidSecret(configured, pathSecret, headerToken), body, old(db.callbackEvents),
                               db.profiles, old(db.requests), db.agents);
            && (st == BadSecret ==> resp == Forbidden)
            && (st == NoCallback ==> resp == Ignored)
            && (st == AlreadySeen ==> resp == Duplicate)
            && (!Records(st) ==> unchanged(db))
            && (Records(st) ==> db.callbackEvents == old(db.callbackEvents) + [EventFor(body.value, st)])
            && (st == Unsupported ==> resp == Ignored)
            && (st.Unlinked? ==> resp == Unauthorized)
            && (st.NotOwned? ==> resp == NotFound)
            && (!st.ToDecide? ==> db.requests == old(db.requests) && db.decisions == old(db.decisions)
                                  && db.intents == old(db.intents) && db.executionQueue == old(db.executionQueue))
    ensures var st := StageFor(IsValidSecret(configured, pathSecret, headerToken), body, old(db.callbackEvents),
                               db.profiles, old(db.requests), db.agents);
            st.ToDecide? ==>
              var r := old(db.requests[st.requestId]);
              && (resp == AlreadyDecided <==> r.status != Pending)
              && (resp == Crashed(DuplicateVote) <==> r.status == Pending && HasDecisionBy(old(db.decisions), st.requestId, st.user.id))
              && (resp == Processed(|old(db.callbackEvents)|) <==>
                    r.status == Pending && !HasDecisionBy(old(db.decisions), st.requestId, st.user.id))
              && (resp.Processed? ==>
                    db.decisions == old(db.decisions) + [ApprovalDecision(st.requestId, Some(st.user.id), Telegram, st.decision,
                      DefaultReasonForChannel(st.decision, Telegram),
                      TelegramMetadata(body.value.id, ExtractTelegramUserId(body.value)))])
              && (resp.Processed? ==>
                    TelegramVoteApplied(db, body.value, st, now, old(db.requests), old(db.decisions), old(db.intents),
                                        old(db.executionQueue)))
              && (!resp.Processed? ==>
                    db.requests == old(db.requests) && db.decisions == old(db.decisions)
                    && db.intents == old(db.intents) && db.executionQueue == old(db.executionQueue))
  {
    var st := StageFor(IsValidSecret(configured, pathSecret, headerToken), body, db.callbackEvents,
                       db.profiles, db.requests, db.agents);
    match st
    case BadSecret => resp := Forbidden;
    case NoCallback => resp := Ignored;
    case AlreadySeen => resp := Duplicate;
    case Unsupported =>
      AppendCallbackEvent(db, EventFor(body.value, st));
      resp := Ignored;
    case Unlinked(_) =>
      AppendCallbackEvent(db, EventFor(body.value, st));
      resp := Unauthorized;
    case NotOwned(_) =>
      AppendCallbackEvent(db, EventFor(body.value, st));
      resp := NotFound;
    case ToDecide(rid, user, decision) =>
      DecidingUserIsOwner(IsValidSecret(configured, pathSecret, headerToken), body, db.callbackEvents,
                          db.profiles, db.requests, db.agents);
      resp := RecordAndDecide(db, body.value, st, now);
  }

  /**
   * What a successful Telegram vote leaves behind: `decide`'s whole effect for the owner's vote on
   * the Telegram channel with the channel's default reason and the callback metadata, whose outcome
   * is the approval count and the quorum after the vote.
   */
  ghost predicate TelegramVoteApplied(db: Database, q: CallbackQuery, st: Stage, now: Instant,
                                      requests0: map<RequestId, ApprovalRequest>, decisions0: seq<ApprovalDecision>,
                                      intents0: map<IntentId, EM.TradeIntent>, queue0: seq<IntentId>)
    requires st.ToDecide? && st.requestId in requests0
    reads db
  {
    var r := requests0[st.requestId];
    var count := ApprovedCount(db.decisions, st.requestId);
    var status := VoteStatus(st.decision, count, Quorum(r));
    VoteApplied(db, st.requestId, st.user.id, st.decision, Telegram, DefaultReasonForChannel(st.decision, Telegram),
                TelegramMetadata(q.id, ExtractTelegramUserId(q)), now, DecisionOutcome(status, status != Pending, count, Quorum(r)),
                requests0, decisions0, intents0, queue0)
  }

  /**
   * The last branch of `post`: the callback row linked to the request, then `decide` as the
   * owner on the Telegram channel with the channel's default reason. A conflict is answered
   * as already decided; any other error of the decision service escapes.
   */
  method RecordAndDecide(db: Database, q: CallbackQuery, st: Stage, now: Instant) returns (resp: WebhookResponse)
    requires db.ApprovalsValid() && st.ToDecide? && !HasCallbackId(db.callbackEvents, q.id)
    requires st.requestId in db.requests && db.requests[st.requestId].agentId in db.agents
    requires CanUserDecide(Some(st.user), db.agents[db.requests[st.requestId].agentId])
    modifies db`callbackEvents, db`requests, db`decisions, db`intents, db`executionQueue
    ensures db.ApprovalsValid()
    ensures db.callbackEvents == old(db.callbackEvents) + [EventFor(q, st)]
    ensures var r := old(db.requests[st.requestId]);
            && (resp == AlreadyDecided <==> r.status != Pending)
            && (resp == Crashed(DuplicateVote) <==> r.status == Pending && HasDecisionBy(old(db.decisions), st.requestId, st.user.id))
            && (resp == Processed(|old(db.callbackEvents)|) <==>
                  r.status == Pending && !HasDecisionBy(old(db.decisions), st.requestId, st.user.id))
            && (resp.Processed? ==>
                  db.decisions == old(db.decisions) + [ApprovalDecision(st.requestId, Some(st.user.id), Telegram, st.decision,
                    DefaultReasonForChannel(st.decision, Telegram), TelegramMetadata(q.id, ExtractTelegramUserId(q)))])
    ensures resp.Processed? ==>
              TelegramVoteApplied(db, q, st, now, old(db.requests), old(db.decisions), old(db.intents), old(db.executionQueue))
    ensures !resp.Processed? ==>
              db.requests == old(db.requests) && db.decisions == old(db.decisions)
              && db.intents == old(db.intents) && db.executionQueue == old(db.executionQueue)
  {
    var eventId := |db.callbackEvents|;
    AppendCallbackEvent(db, EventFor(q, st));
    var result := Decide(db, st.requestId, Some(st.user), st.decision, Telegram, DefaultReasonForChannel(st.decision, Telegram),
                         TelegramMetadata(q.id, ExtractTelegramUserId(q)), now);
    match result
    case Err(e) =>
      resp := if e == Conflict then AlreadyDecided else Crashed(e);
    case Ok(_) =>
      resp := Processed(eventId);
  }
}
