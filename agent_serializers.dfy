/**
 * The input rules of the agents API: AgentSerializer's quorum check and its create/update,
 * AgentAnalysisRequestSerializer's field bounds, and the webhook endpoint serializer's event
 * type and header validators and its `has_signing_secret` field.
 */
module AgentSerializers {
  import opened Wrappers
  import opened Ids
  import opened Text
  import opened AgentModels
  import AnalysisNotifications

  // ----- AgentSerializer

  /** The submitted approval fields of an agent payload; `None` where the payload leaves one out. */
  datatype ApprovalFields = ApprovalFields(requiredApprovals: Option<int>, approvers: Option<seq<UserId>>)

  function MinValueMessage(bound: int): string {
    "Ensure this value is greater than or equal to " + (if bound >= 0 then NatToString(bound) else "-" + NatToString(-bound)) + "."
  }

  function MaxValueMessage(bound: nat): string {
    "Ensure this value is less than or equal to " + NatToString(bound) + "."
  }

  function ExceedsMessage(max: nat): string {
    "required_approvals cannot exceed owner + approvers (" + NatToString(max) + ")."
  }

  /** The quorum `validate` checks: the submitted value, else the instance's, else 1. */
  function RequiredFor(p: ApprovalFields, instance: Option<Agent>): int {
    if p.requiredApprovals.Some? then p.requiredApprovals.value
    else if instance.Some? then instance.value.requiredApprovals else 1
  }

  /** The approver count `validate` checks against: the length of the submitted list, else the instance's count, else 0. */
  function ApproverCountAsWritten(p: ApprovalFields, instance: Option<Agent>): nat {
    if p.approvers.Some? then |p.approvers.value|
    else if instance.Some? then |instance.value.approvers| else 0
  }

  /**
   * `AgentSerializer(data=..., instance=...).is_valid()` for the approval fields: the
   * field-level minimum of 1 first, then `validate`'s check that the quorum does not exceed the
   * owner plus the approvers, counted as the submitted list's length.
   */
  function ValidateApprovals(p: ApprovalFields, instance: Option<Agent>): (r: Result<ApprovalFields, map<string, string>>)
    ensures r.Ok? <==> (p.requiredApprovals.None? || p.requiredApprovals.value >= 1)
                       && RequiredFor(p, instance) <= ApproverCountAsWritten(p, instance) + 1
    ensures r.Ok? ==> r.value == p
    ensures r.Err? ==> r.error.Keys == {"required_approvals"}
    ensures r.Err? && p.requiredApprovals.Some? && p.requiredApprovals.value < 1 ==>
              r.error["required_approvals"] == MinValueMessage(1)
    ensures r.Err? && (p.requiredApprovals.None? || p.requiredApprovals.value >= 1) ==>
              r.error["required_approvals"] == ExceedsMessage(ApproverCountAsWritten(p, instance) + 1)
  {
    if p.requiredApprovals.Some? && p.requiredApprovals.value < 1 then
      Err(map["required_approvals" := MinValueMessage(1)])
    else if RequiredFor(p, instance) > ApproverCountAsWritten(p, instance) + 1 then
      Err(map["required_approvals" := ExceedsMessage(ApproverCountAsWritten(p, instance) + 1)])
    else Ok(p)
  }

  /** The elements of a list, as `agent.approvers.set(...)` stores them. */
  function Elements(s: seq<UserId>): (r: set<UserId>)
    ensures forall x :: x in r <==> x in s
    ensures |r| <= |s|
  {
    if |s| == 0 then {} else
      var rest := Elements(s[1..]);
      assert forall x :: x in s <==> x == s[0] || x in s[1..];
      rest + {s[0]}
  }

  /**
   * The agent `create` or `update` saves for validated approval fields: a submitted quorum
   * replaces the stored one and a submitted approver list replaces the approver set (its
   * distinct members); everything else, the owner included, stays. For `create`, `base` is the
   * new row with its defaults.
   */
  function Saved(base: Agent, p: ApprovalFields): (a: Agent)
    requires p.requiredApprovals.None? || p.requiredApprovals.value >= 1
    ensures a.id == base.id && a.ownerId == base.ownerId && a.status == base.status
    ensures a.requiredApprovals == (if p.requiredApprovals.Some? then p.requiredApprovals.value else base.requiredApprovals)
    ensures p.approvers.Some? ==> (forall u :: u in a.approvers <==> u in p.approvers.value)
    ensures p.approvers.None? ==> a.approvers == base.approvers
  {
    base.(requiredApprovals := if p.requiredApprovals.Some? then p.requiredApprovals.value as nat else base.requiredApprovals,
          approvers := if p.approvers.Some? then Elements(p.approvers.value) else base.approvers)
  }

  /** The stored agent an update validates against, or the defaults of a new one. */
  predicate BaseFor(base: Agent, instance: Option<Agent>) {
    (instance.Some? ==> base == instance.value)
    && (instance.None? ==> base.approvers == {} && base.requiredApprovals == 1)
  }

  /**
   * The validation as written counts the submitted list with repetitions and does not discount the
   * owner, while the saved agent keeps a set: an update that names one approver twice passes
   * with a quorum of 3 that the owner and the single approver cannot reach.
   */
  lemma DuplicateApproversPassValidation()
    ensures var owner := 1;
            var a := NewAgent(7, owner, "desk", "desk");
            var p := ApprovalFields(Some(3), Some([2, 2]));
            && ValidateApprovals(p, Some(a)).Ok?
            && Saved(a, p).requiredApprovals > |Saved(a, p).approvers - {owner}| + 1
  {
    var a := NewAgent(7, 1, "desk", "desk");
    var p := ApprovalFields(Some(3), Some([2, 2]));
    assert Saved(a, p).approvers == {2};
  }

  /** The distinct approvers other than the owner: the eligible voters besides the owner (and staff). */
  function ApproverCount(approvers: set<UserId>, owner: UserId): nat {
    |approvers - {owner}|
  }

  /** The approver count the intended check uses: the distinct approvers the saved agent will have, the owner left out. */
  function DistinctCount(p: ApprovalFields, instance: Option<Agent>, owner: UserId): nat {
    if p.approvers.Some? then ApproverCount(Elements(p.approvers.value), owner)
    else if instance.Some? then ApproverCount(instance.value.approvers, owner) else 0
  }

  /**
   * The validation as intended: the quorum is compared with the owner plus the distinct approvers
   * the saved agent will have, not counting the owner twice.
   */
  function ValidateApprovalsDistinct(p: ApprovalFields, instance: Option<Agent>, owner: UserId)
    : (r: Result<ApprovalFields, map<string, string>>)
    ensures r.Ok? <==> (p.requiredApprovals.None? || p.requiredApprovals.value >= 1)
                       && RequiredFor(p, instance) <= DistinctCount(p, instance, owner) + 1
    ensures r.Ok? ==> r.value == p
    ensures r.Err? ==> r.error.Keys == {"required_approvals"}
  {
    var count := DistinctCount(p, instance, owner);
    if p.requiredApprovals.Some? && p.requiredApprovals.value < 1 then
      Err(map["required_approvals" := MinValueMessage(1)])
    else if RequiredFor(p, instance) > count + 1 then
      Err(map["required_approvals" := ExceedsMessage(count + 1)])
    else Ok(p)
  }

  /**
   * The intended check accepts exactly the payloads whose saved agent can reach its quorum
   * with the owner and its distinct approvers.
   */
  lemma DistinctValidationMatchesSavedAgent(p: ApprovalFields, instance: Option<Agent>, base: Agent)
    requires BaseFor(base, instance)
    ensures ValidateApprovalsDistinct(p, instance, base.ownerId).Ok? <==>
              (p.requiredApprovals.None? || p.requiredApprovals.value >= 1)
              && Saved(base, p).requiredApprovals <= ApproverCount(Saved(base, p).approvers, base.ownerId) + 1
  {
    if p.requiredApprovals.None? || p.requiredApprovals.value >= 1 {
      var a := Saved(base, p);
      if p.approvers.Some? {
        assert a.approvers == Elements(p.approvers.value);
      }
    }
  }

  /** The two checks agree whenever the submitted list has no repetition and leaves out the owner. */
  lemma ChecksAgreeOnDistinctApprovers(p: ApprovalFields, instance: Option<Agent>, owner: UserId)
    requires p.approvers.Some? && owner !in p.approvers.value
    requires forall i, j :: 0 <= i < j < |p.approvers.value| ==> p.approvers.value[i] != p.approvers.value[j]
    ensures ValidateApprovals(p, instance).Ok? <==> ValidateApprovalsDistinct(p, instance, owner).Ok?
  {
    var approvers := p.approvers.value;
    DistinctElements(approvers);
    assert Elements(approvers) - {owner} == Elements(approvers);
    assert DistinctCount(p, instance, owner) == ApproverCountAsWritten(p, instance);
  }

  lemma {:induction false} DistinctElements(s: seq<UserId>)
    requires forall i, j :: 0 <= i < j < |s| ==> s[i] != s[j]
    ensures |Elements(s)| == |s|
  {
    if |s| > 0 {
      DistinctElements(s[1..]);
      assert s[0] !in s[1..] by {
        forall k | 0 <= k < |s[1..]| ensures s[1..][k] != s[0] {
          assert s[1..][k] == s[k + 1];
        }
      }
      assert s[0] !in Elements(s[1..]);
    }
  }

  // ----- AgentAnalysisRequestSerializer

  const RequiredMessage: string := "This field is required."
  const BlankMessage: string := "This field may not be blank."
  const MaxQueryChars: nat := 4000
  const MaxModelChars: nat := 128
  const MinSteps: int := 1
  const MaxSteps: nat := 10

  function MaxLengthMessage(n: nat): string {
    "Ensure this field has no more than " + NatToString(n) + " characters."
  }

  /** A validated analysis request; the strings are stripped, as a CharField does. */
  datatype AnalysisRequest = AnalysisRequest(query: string, model: Option<string>, maxSteps: Option<int>, asyncMode: Option<bool>)

  /**
   * `query`: required, not blank, and after stripping at most 4000 characters and free of
   * null characters. The message is the first of the field's errors.
   */
  function QueryError(query: Option<string>): (e: Option<string>)
    ensures e.None? <==> query.Some? && 1 <= |Strip(query.value)| <= MaxQueryChars && !HasNullCharacter(Strip(query.value))
    ensures query.Some? && Strip(query.value) != "" && |Strip(query.value)| <= MaxQueryChars && HasNullCharacter(Strip(query.value))
            ==> e == Some(NullCharactersMessage)
  {
    if query.None? then Some(RequiredMessage)
    else if Strip(query.value) == "" then Some(BlankMessage)
    else if |Strip(query.value)| > MaxQueryChars then Some(MaxLengthMessage(MaxQueryChars))
    else if HasNullCharacter(Strip(query.value)) then Some(NullCharactersMessage)
    else None
  }

  /**
   * `model`: optional and may be blank; otherwise after stripping at most 128 characters and
   * free of null characters.
   */
  function ModelError(model: Option<string>): (e: Option<string>)
    ensures e.None? <==> model.None? || Strip(model.value) == ""
                         || (|Strip(model.value)| <= MaxModelChars && !HasNullCharacter(Strip(model.value)))
  {
    if model.None? || Strip(model.value) == "" then None
    else if |Strip(model.value)| > MaxModelChars then Some(MaxLengthMessage(MaxModelChars))
    else if HasNullCharacter(Strip(model.value)) then Some(NullCharactersMessage)
    else None
  }

  /** `max_steps`: optional, from 1 to 10. */
  function MaxStepsError(maxSteps: Option<int>): (e: Option<string>)
    ensures e.None? <==> maxSteps.None? || MinSteps <= maxSteps.value <= MaxSteps
  {
    if maxSteps.Some? && maxSteps.value < MinSteps then Some(MinValueMessage(MinSteps))
    else if maxSteps.Some? && maxSteps.value > MaxSteps then Some(MaxValueMessage(MaxSteps))
    else None
  }

  function ErrorEntry(field: string, e: Option<string>): (m: map<string, string>)
    ensures m.Keys == if e.Some? then {field} else {}
    ensures e.Some? ==> m[field] == e.value
  {
    if e.Some? then map[field := e.value] else map[]
  }

  /** The four field names of the analysis request are different keys. */
  lemma FieldNamesDistinct()
    ensures "query" != "model" && "query" != "max_steps" && "model" != "max_steps"
    ensures "async_mode" != "query" && "async_mode" != "model" && "async_mode" != "max_steps"
  {
    assert "query"[0] == 'q' && "model"[0] == 'm' && "max_steps"[0] == 'm' && "async_mode"[0] == 'a';
    assert "model"[1] == 'o' && "max_steps"[1] == 'a';
  }

  /** The serializer's error dictionary: one entry per failing field, with that field's message. */
  function RequestErrors(qe: Option<string>, me: Option<string>, se: Option<string>): (m: map<string, string>)
    ensures ("query" in m <==> qe.Some?) && ("model" in m <==> me.Some?) && ("max_steps" in m <==> se.Some?)
    ensures "async_mode" !in m
    ensures qe.Some? ==> m["query"] == qe.value
  {
    FieldNamesDistinct();
    ErrorEntry("query", qe) + ErrorEntry("model", me) + ErrorEntry("max_steps", se)
  }

  /**
   * `AgentAnalysisRequestSerializer(data=...).is_valid()`: valid exactly when every field is;
   * the errors name each failing field.
   */
  function ValidateAnalysisRequest(query: Option<string>, model: Option<string>, maxSteps: Option<int>, asyncMode: Option<bool>)
    : (r: Result<AnalysisRequest, map<string, string>>)
    ensures r.Ok? <==> QueryError(query).None? && ModelError(model).None? && MaxStepsError(maxSteps).None?
    ensures r.Ok? ==> 1 <= |r.value.query| <= MaxQueryChars && r.value.query == Strip(query.value)
    ensures r.Ok? ==> r.value.maxSteps == maxSteps && (maxSteps.Some? ==> 1 <= maxSteps.value <= 10)
    ensures r.Ok? ==> r.value.model == (if model.Some? then Some(Strip(model.value)) else None)
                      && (model.Some? ==> |r.value.model.value| <= MaxModelChars)
    ensures r.Ok? ==> r.value.asyncMode == asyncMode
    ensures r.Err? ==> ("query" in r.error <==> QueryError(query).Some?)
                       && ("model" in r.error <==> ModelError(model).Some?)
                       && ("max_steps" in r.error <==> MaxStepsError(maxSteps).Some?)
                       && "async_mode" !in r.error
    ensures r.Err? && query.None? ==> r.error["query"] == RequiredMessage
  {
    var qe, me, se := QueryError(query), ModelError(model), MaxStepsError(maxSteps);
    if qe.None? && me.None? && se.None? then
      Ok(AnalysisRequest(Strip(query.value), if model.Some? then Some(Strip(model.value)) else None, maxSteps, asyncMode))
    else
      Err(RequestErrors(qe, me, se))
  }

  // ----- AgentAnalysisWebhookEndpointSerializer

  /** `get_has_signing_secret`: whether a ciphertext is stored. */
  predicate HasSigningSecret(e: WebhookEndpoint) {
    e.signingSecretEncrypted != ""
  }

  /**
   * An endpoint created with a signing secret reports one exactly when the secret is non-empty
   * (a Fernet token is never empty); the secret itself is not part of the response.
   */
  lemma HasSigningSecretIffGiven(id: EndpointId, owner: UserId, p: AnalysisNotifications.EndpointFields,
                                 cipher: Result<string, string>)
    requires p.name.Some? && p.callbackUrl.Some?
    requires cipher.Ok? ==> cipher.value != ""
    requires AnalysisNotifications.NewEndpoint(id, owner, p, cipher).Ok?
    ensures HasSigningSecret(AnalysisNotifications.NewEndpoint(id, owner, p, cipher).value) <==> p.signingSecret.GetOr("") != ""
  {
  }

  const NotAListMessage: string := "event_types must be a list of event names."

  /**
   * Python's `<` on strings: the first differing character decides, and a proper prefix comes
   * first.
   */
  predicate LexLess(a: string, b: string)
    decreases |a|
  {
    if |a| == 0 then |b| > 0
    else |b| > 0 && (a[0] < b[0] || (a[0] == b[0] && LexLess(a[1..], b[1..])))
  }

  lemma {:induction false} LexLessIrreflexive(a: string)
    ensures !LexLess(a, a)
    decreases |a|
  {
    if |a| > 0 { LexLessIrreflexive(a[1..]); }
  }

  lemma {:induction false} LexLessTotal(a: string, b: string)
    ensures a == b || LexLess(a, b) || LexLess(b, a)
    decreases |a|
  {
    if |a| > 0 && |b| > 0 && a[0] == b[0] {
      LexLessTotal(a[1..], b[1..]);
      if a[1..] == b[1..] {
        assert a == [a[0]] + a[1..] && b == [b[0]] + b[1..];
      }
    }
  }

  lemma {:induction false} LexLessTransitive(a: string, b: string, c: string)
    requires LexLess(a, b) && LexLess(b, c)
    ensures LexLess(a, c)
    decreases |a|
  {
    if |a| > 0 && a[0] == b[0] && b[0] == c[0] {
      LexLessTransitive(a[1..], b[1..], c[1..]);
    }
  }

  /** Each element is below the next. */
  predicate StrictlySorted(s: seq<string>) {
    forall i :: 0 < i < |s| ==> LexLess(s[i - 1], s[i])
  }

  /** A strictly sorted list holds no element twice. */
  lemma {:induction false} StrictlySortedDistinct(s: seq<string>, i: int, j: int)
    requires StrictlySorted(s) && 0 <= i < j < |s|
    ensures LexLess(s[i], s[j]) && s[i] != s[j]
    decreases j - i
  {
    if j == i + 1 {
    } else {
      StrictlySortedDistinct(s, i, j - 1);
      LexLessTransitive(s[i], s[j - 1], s[j]);
    }
    if s[i] == s[j] { LexLessIrreflexive(s[i]); }
  }

  /** Insert `x` into a strictly sorted list, unless it is already there. */
  function InsertSorted(x: string, s: seq<string>): (r: seq<string>)
    requires StrictlySorted(s)
    ensures StrictlySorted(r)
    ensures forall y :: y in r <==> y == x || y in s
  {
    if |s| == 0 then [x]
    else if x == s[0] then s
    else if LexLess(x, s[0]) then [x] + s
    else
      LexLessTotal(x, s[0]);
      var tail := InsertSorted(x, s[1..]);
      assert forall y :: y in s <==> y == s[0] || y in s[1..];
      [s[0]] + tail
  }

  /** `sorted(set(items))`. */
  function SortedDistinct(items: seq<string>): (r: seq<string>)
    ensures StrictlySorted(r)
    ensures forall y :: y in r <==> y in items
  {
    if |items| == 0 then []
    else
      assert forall y :: y in items <==> y == items[0] || y in items[1..];
      InsertSorted(items[0], SortedDistinct(items[1..]))
  }

  function Join(items: seq<string>, sep: string): string {
    if |items| == 0 then "" else if |items| == 1 then items[0] else items[0] + sep + Join(items[1..], sep)
  }

  /** The items that are not allowed event types, in order, repetitions kept. */
  function Unsupported(items: seq<string>): (r: seq<string>)
    ensures forall y :: y in r <==> y in items && y !in AllowedEventTypes
  {
    if |items| == 0 then []
    else
      assert forall y :: y in items <==> y == items[0] || y in items[1..];
      (if items[0] in AllowedEventTypes then [] else [items[0]]) + Unsupported(items[1..])
  }

  /** The list the error message names: each unsupported item once, in ascending order. */
  function UnsupportedNames(items: seq<string>): (r: seq<string>)
    ensures StrictlySorted(r)
    ensures forall y :: y in r <==> y in items && y !in AllowedEventTypes
    ensures forall i, j :: 0 <= i < j < |r| ==> r[i] != r[j]
  {
    var r := SortedDistinct(Unsupported(items));
    forall i, j | 0 <= i < j < |r| ensures r[i] != r[j] { StrictlySortedDistinct(r, i, j); }
    r
  }

  function UnsupportedMessage(names: seq<string>): string {
    "Unsupported event_types: " + Join(names, ", ") + "."
  }

  /**
   * `validate_event_types`: a list (of stringified items; `None` when the value is not a list)
   * is accepted as it is exactly when every item is an allowed event type; otherwise the
   * message names the unsupported items, each once, sorted.
   */
  function ValidateEventTypes(value: Option<seq<string>>): (r: Result<seq<string>, string>)
    ensures r.Ok? <==> value.Some? && forall i :: 0 <= i < |value.value| ==> value.value[i] in AllowedEventTypes
    ensures r.Ok? ==> r.value == value.value
    ensures r.Err? && value.None? ==> r.error == NotAListMessage
    ensures r.Err? && value.Some? ==> r.error == UnsupportedMessage(UnsupportedNames(value.value))
                                      && |UnsupportedNames(value.value)| > 0
  {
    if value.None? then Err(NotAListMessage)
    else
      var names := UnsupportedNames(value.value);
      if |names| == 0 then
        assert forall i :: 0 <= i < |value.value| ==> value.value[i] in AllowedEventTypes by {
          forall i | 0 <= i < |value.value| ensures value.value[i] in AllowedEventTypes {
            assert value.value[i] !in names;
          }
        }
        Ok(value.value)
      else
        assert names[0] in value.value && names[0] !in AllowedEventTypes;
        Err(UnsupportedMessage(names))
  }

  /** An endpoint's default subscription passes the validator. */
  lemma DefaultEventTypesValid()
    ensures ValidateEventTypes(Some(DefaultEventTypes())) == Ok(DefaultEventTypes())
  {
  }

  const NotAnObjectMessage: string := "headers must be an object of string pairs."
  const BlankKeyMessage: string := "Header keys cannot be blank."

  /** A stripped string strips to itself. */
  lemma StripIdempotent(s: string)
    ensures Strip(Strip(s)) == Strip(s)
  {
    StripOfStripped(Strip(s));
  }

  /** Some pair's key strips to `k`. */
  predicate NamesKey(pairs: seq<(string, string)>, k: string) {
    exists i :: 0 <= i < |pairs| && StrippedKey(pairs, i) == k
  }

  function StrippedKey(pairs: seq<(string, string)>, i: int): string
    requires 0 <= i < |pairs|
  {
    Strip(pairs[i].0)
  }

  lemma NamesKeySnoc(pairs: seq<(string, string)>, k: string)
    requires |pairs| > 0
    ensures NamesKey(pairs, k) <==> NamesKey(pairs[..|pairs| - 1], k) || StrippedKey(pairs, |pairs| - 1) == k
  {
    var pre := pairs[..|pairs| - 1];
    if NamesKey(pairs, k) && StrippedKey(pairs, |pairs| - 1) != k {
      var i :| 0 <= i < |pairs| && StrippedKey(pairs, i) == k;
      assert StrippedKey(pre, i) == k;
    }
    if NamesKey(pre, k) {
      var i :| 0 <= i < |pre| && StrippedKey(pre, i) == k;
      assert StrippedKey(pairs, i) == k;
    }
  }

  /**
   * The headers a list of (key, value) pairs gives, in the dict's iteration order: each key
   * stripped, and a later pair overwriting an earlier one with the same stripped key.
   */
  function HeaderMap(pairs: seq<(string, string)>): (m: map<string, string>)
    ensures forall k :: k in m <==> NamesKey(pairs, k)
    ensures forall k :: k in m ==> Strip(k) == k
  {
    if |pairs| == 0 then map[]
    else
      var m := HeaderMap(pairs[..|pairs| - 1]);
      var key := StrippedKey(pairs, |pairs| - 1);
      StripIdempotent(pairs[|pairs| - 1].0);
      forall k ensures NamesKey(pairs, k) <==> k in m || k == key {
        NamesKeySnoc(pairs, k);
      }
      m[key := pairs[|pairs| - 1].1]
  }

  /** The last pair with a given stripped key decides its value. */
  lemma {:induction false} HeaderMapLastWins(pairs: seq<(string, string)>, i: int)
    requires 0 <= i < |pairs|
    requires forall j :: i < j < |pairs| ==> StrippedKey(pairs, j) != StrippedKey(pairs, i)
    ensures StrippedKey(pairs, i) in HeaderMap(pairs) && HeaderMap(pairs)[StrippedKey(pairs, i)] == pairs[i].1
  {
    var pre := pairs[..|pairs| - 1];
    assert HeaderMap(pairs) == HeaderMap(pre)[StrippedKey(pairs, |pairs| - 1) := pairs[|pairs| - 1].1];
    if i < |pairs| - 1 {
      assert StrippedKey(pre, i) == StrippedKey(pairs, i);
      forall j | i < j < |pre| ensures StrippedKey(pre, j) != StrippedKey(pre, i) {
        assert StrippedKey(pre, j) == StrippedKey(pairs, j);
      }
      HeaderMapLastWins(pre, i);
    }
  }

  /** Whether some key strips to nothing. */
  predicate HasBlankKey(pairs: seq<(string, string)>) {
    NamesKey(pairs, "")
  }

  /**
   * `validate_headers` as a function: not an object is refused, a key that strips to nothing
   * is refused, and otherwise the headers are `HeaderMap` of the pairs.
   */
  function HeadersValidated(value: Option<seq<(string, string)>>): (r: Result<map<string, string>, string>)
    ensures r.Ok? <==> value.Some? && !HasBlankKey(value.value)
    ensures r.Ok? ==> r.value == HeaderMap(value.value)
    ensures r.Ok? ==> forall k :: k in r.value ==> k != "" && Strip(k) == k
    ensures r.Err? ==> r.error == (if value.None? then NotAnObjectMessage else BlankKeyMessage)
  {
    if value.None? then Err(NotAnObjectMessage)
    else if HasBlankKey(value.value) then Err(BlankKeyMessage)
    else Ok(HeaderMap(value.value))
  }

  /**
   * Validated headers validate again to themselves: a second pass over the stored headers
   * (in any order, each key once) changes nothing.
   */
  lemma HeadersRevalidate(value: Option<seq<(string, string)>>, again: seq<(string, string)>)
    requires HeadersValidated(value).Ok?
    requires forall i, j :: 0 <= i < j < |again| ==> again[i].0 != again[j].0
    requires forall i :: 0 <= i < |again| ==>
               (again[i].0 in HeadersValidated(value).value && HeadersValidated(value).value[again[i].0] == again[i].1)
    requires forall k :: k in HeadersValidated(value).value ==> exists i :: 0 <= i < |again| && again[i].0 == k
    ensures HeadersValidated(Some(again)) == HeadersValidated(value)
  {
    var m := HeadersValidated(value).value;
    assert forall i :: 0 <= i < |again| ==> StrippedKey(again, i) == again[i].0;
    assert !HasBlankKey(again);
    var n := HeaderMap(again);
    forall k | k in n ensures k in m && n[k] == m[k] {
      var i :| 0 <= i < |again| && StrippedKey(again, i) == k;
      HeaderMapLastWins(again, i);
    }
    forall k | k in m ensures k in n {
      var i :| 0 <= i < |again| && again[i].0 == k;
      assert StrippedKey(again, i) == k;
    }
    assert n == m;
  }

  /** `validate_headers`: the dict is built key by key and the first blank key stops the loop. */
  method ValidateHeaders(value: Option<seq<(string, string)>>) returns (r: Result<map<string, string>, string>)
    ensures r == HeadersValidated(value)
  {
    if value.None? {
      return Err(NotAnObjectMessage);
    }
    var pairs := value.value;
    var normalized: map<string, string> := map[];
    var i := 0;
    while i < |pairs|
      invariant 0 <= i <= |pairs|
      invariant normalized == HeaderMap(pairs[..i])
      invariant !HasBlankKey(pairs[..i])
    {
      var key := Strip(pairs[i].0);
      if key == "" {
        assert StrippedKey(pairs, i) == "";
        return Err(BlankKeyMessage);
      }
      var next := pairs[..i + 1];
      assert next[..i] == pairs[..i];
      assert StrippedKey(next, i) == key;
      NamesKeySnoc(next, "");
      normalized := normalized[key := pairs[i].1];
      i := i + 1;
    }
    assert pairs[..i] == pairs;
    r := Ok(normalized);
  }
}
