/**
 * Webhook notifications for finished analysis runs. AnalysisWebhookEndpointService stores an
 * endpoint with its signing secret encrypted ("" stays ""). AnalysisRunNotificationDispatchService
 * maps a terminal run status to an event, walks the owner's active endpoints in id order with one
 * delivery record per (endpoint, run, event), and turns each attempt into a change of its record,
 * an exponential backoff and the reported retry delay.
 *
 * Encryption, decryption, HMAC signing and the HTTP POST are not computed here: the outcome of
 * `crypto.encrypt` is a parameter, the outcome of decryption and of the POST arrive per endpoint
 * in a `NetworkOutcome`, and the HMAC-SHA256 hex digest is the uninterpreted function `sign`.
 */
module AnalysisNotifications {
  import opened Wrappers
  import opened Clock
  import opened Ids
  import opened Text
  import opened AgentModels
  import opened Store

  // ----- AnalysisWebhookEndpointService

  /** The entries of a validated endpoint payload; `None` where the payload has no such key. */
  datatype EndpointFields = EndpointFields(
    name: Option<string>,
    callbackUrl: Option<string>,
    isActive: Option<bool>,
    eventTypes: Option<seq<string>>,
    headers: Option<map<string, string>>,
    signingSecret: Option<string>)

  /**
   * The stored form of a signing secret: "" for an empty secret, without calling the cipher;
   * otherwise the outcome of `crypto.encrypt` (an `Err` when it raised).
   */
  function StoredSecret(secret: string, cipher: Result<string, string>): (r: Result<string, string>)
    ensures secret == "" ==> r == Ok("")
    ensures secret != "" ==> r == cipher
  {
    if secret == "" then Ok("") else cipher
  }

  /**
   * The row `create_for_user` builds: active unless the payload says otherwise, subscribed to
   * every event unless the payload lists some, no extra headers unless given, and the secret
   * stored through `StoredSecret`. An encryption failure builds no row.
   */
  function NewEndpoint(id: EndpointId, owner: UserId, p: EndpointFields, cipher: Result<string, string>)
    : (r: Result<WebhookEndpoint, string>)
    requires p.name.Some? && p.callbackUrl.Some?
    ensures r.Err? <==> p.signingSecret.GetOr("") != "" && cipher.Err?
    ensures r.Err? ==> r.error == cipher.error
    ensures r.Ok? ==> r.value.id == id && r.value.ownerId == owner
                      && r.value.name == p.name.value && r.value.callbackUrl == p.callbackUrl.value
    ensures r.Ok? ==> r.value.isActive == p.isActive.GetOr(true)
    ensures r.Ok? ==> r.value.eventTypes == p.eventTypes.GetOr(DefaultEventTypes())
    ensures r.Ok? ==> r.value.headers == Some(p.headers.GetOr(map[]))
    ensures r.Ok? ==> (r.value.signingSecretEncrypted == "" <==> p.signingSecret.GetOr("") == "" || cipher.value == "")
    ensures r.Ok? && p.signingSecret.GetOr("") != "" ==> r.value.signingSecretEncrypted == cipher.value
  {
    var stored := StoredSecret(p.signingSecret.GetOr(""), cipher);
    if stored.Err? then Err(stored.error)
    else
      Ok(WebhookEndpoint(id, owner, p.name.value, p.callbackUrl.value, stored.value, p.isActive.GetOr(true),
                         p.eventTypes.GetOr(DefaultEventTypes()), Some(p.headers.GetOr(map[]))))
  }

  /**
   * The row `update` saves: each of name, callback URL, active flag, event types and headers
   * that the payload names is replaced, the rest kept; a named signing secret is stored again
   * through `StoredSecret`. An encryption failure saves nothing.
   */
  function UpdatedEndpoint(e: WebhookEndpoint, p: EndpointFields, cipher: Result<string, string>)
    : (r: Result<WebhookEndpoint, string>)
    ensures r.Err? <==> p.signingSecret.Some? && p.signingSecret.value != "" && cipher.Err?
    ensures r.Ok? ==> r.value.id == e.id && r.value.ownerId == e.ownerId
    ensures r.Ok? ==> r.value.name == p.name.GetOr(e.name) && r.value.callbackUrl == p.callbackUrl.GetOr(e.callbackUrl)
                      && r.value.isActive == p.isActive.GetOr(e.isActive)
                      && r.value.eventTypes == p.eventTypes.GetOr(e.eventTypes)
                      && (p.headers.Some? ==> r.value.headers == p.headers)
                      && (p.headers.None? ==> r.value.headers == e.headers)
    ensures r.Ok? && p.signingSecret.None? ==> r.value.signingSecretEncrypted == e.signingSecretEncrypted
    ensures r.Ok? && p.signingSecret == Some("") ==> r.value.signingSecretEncrypted == ""
    ensures r.Ok? && p.signingSecret.Some? && p.signingSecret.value != "" ==> r.value.signingSecretEncrypted == cipher.value
  {
    var fields := e.(name := p.name.GetOr(e.name), callbackUrl := p.callbackUrl.GetOr(e.callbackUrl),
                     isActive := p.isActive.GetOr(e.isActive), eventTypes := p.eventTypes.GetOr(e.eventTypes),
                     headers := if p.headers.Some? then p.headers else e.headers);
    if p.signingSecret.None? then Ok(fields)
    else
      var stored := StoredSecret(p.signingSecret.value, cipher);
      if stored.Err? then Err(stored.error) else Ok(fields.(signingSecretEncrypted := stored.value))
  }

  /**
   * `decrypt_signing_secret`: an empty ciphertext is the empty secret, without calling the
   * cipher; otherwise the outcome of `crypto.decrypt` (`plain`).
   */
  function Decrypt(e: WebhookEndpoint, plain: Result<string, string>): (r: Result<string, string>)
    ensures e.signingSecretEncrypted == "" ==> r == Ok("")
    ensures e.signingSecretEncrypted != "" ==> r == plain
  {
    if e.signingSecretEncrypted == "" then Ok("") else plain
  }

  /**
   * An endpoint created or updated with an empty signing secret decrypts to "" whatever the
   * cipher would do, so deliveries to it are never signed.
   */
  lemma EmptySecretRoundTrip(id: EndpointId, owner: UserId, p: EndpointFields, cipher: Result<string, string>,
                             plain: Result<string, string>)
    requires p.name.Some? && p.callbackUrl.Some? && p.signingSecret.GetOr("") == ""
    ensures NewEndpoint(id, owner, p, cipher).Ok?
    ensures Decrypt(NewEndpoint(id, owner, p, cipher).value, plain) == Ok("")
    ensures forall e: WebhookEndpoint :: UpdatedEndpoint(e, p.(signingSecret := Some("")), cipher).Ok?
                                          && Decrypt(UpdatedEndpoint(e, p.(signingSecret := Some("")), cipher).value, plain) == Ok("")
  {
  }

  /**
   * With a non-empty secret that encrypts to a non-empty ciphertext, create and update both
   * store exactly that ciphertext, and decrypting the saved row goes to the cipher.
   */
  lemma NonEmptySecretGoesToCipher(id: EndpointId, owner: UserId, e: WebhookEndpoint, p: EndpointFields,
                                   cipher: Result<string, string>, plain: Result<string, string>)
    requires p.name.Some? && p.callbackUrl.Some? && p.signingSecret.Some? && p.signingSecret.value != ""
    requires cipher.Ok? && cipher.value != ""
    ensures NewEndpoint(id, owner, p, cipher).Ok? && UpdatedEndpoint(e, p, cipher).Ok?
    ensures NewEndpoint(id, owner, p, cipher).value.signingSecretEncrypted == cipher.value
    ensures UpdatedEndpoint(e, p, cipher).value.signingSecretEncrypted == cipher.value
    ensures Decrypt(NewEndpoint(id, owner, p, cipher).value, plain) == plain
    ensures Decrypt(UpdatedEndpoint(e, p, cipher).value, plain) == plain
  {
  }

  /** Every endpoint is stored under its own id, below the next fresh id. */
  ghost predicate EndpointsValid(endpoints: map<EndpointId, WebhookEndpoint>, nextId: nat) {
    forall id :: id in endpoints ==> endpoints[id].id == id && id < nextId
  }

  /** `create_for_user` followed by `save()`: the new row under the next fresh id, unless encryption failed. */
  method CreateForUser(db: Database, owner: UserId, p: EndpointFields, cipher: Result<string, string>)
    returns (r: Result<EndpointId, string>)
    requires p.name.Some? && p.callbackUrl.Some?
    requires EndpointsValid(db.endpoints, db.nextEndpointId)
    modifies db`endpoints, db`nextEndpointId
    ensures EndpointsValid(db.endpoints, db.nextEndpointId)
    ensures var built := NewEndpoint(old(db.nextEndpointId), owner, p, cipher);
            && (built.Err? ==> r == Err(built.error) && db.endpoints == old(db.endpoints)
                               && db.nextEndpointId == old(db.nextEndpointId))
            && (built.Ok? ==> r == Ok(old(db.nextEndpointId))
                              && db.endpoints == old(db.endpoints)[old(db.nextEndpointId) := built.value]
                              && db.nextEndpointId == old(db.nextEndpointId) + 1)
  {
    var built := NewEndpoint(db.nextEndpointId, owner, p, cipher);
    if built.Err? {
      r := Err(built.error);
      return;
    }
    r := Ok(db.nextEndpointId);
    db.endpoints, db.nextEndpointId := db.endpoints[db.nextEndpointId := built.value], db.nextEndpointId + 1;
  }

  /** `update(endpoint, payload)` followed by `save()`, unless encryption failed. */
  method UpdateEndpoint(db: Database, id: EndpointId, p: EndpointFields, cipher: Result<string, string>)
    returns (r: Result<WebhookEndpoint, string>)
    requires id in db.endpoints && EndpointsValid(db.endpoints, db.nextEndpointId)
    modifies db`endpoints
    ensures EndpointsValid(db.endpoints, db.nextEndpointId)
    ensures r == UpdatedEndpoint(old(db.endpoints[id]), p, cipher)
    ensures r.Err? ==> db.endpoints == old(db.endpoints)
    ensures r.Ok? ==> db.endpoints == old(db.endpoints)[id := r.value]
  {
    r := UpdatedEndpoint(db.endpoints[id], p, cipher);
    if r.Ok? {
      db.endpoints := db.endpoints[id := r.value];
    }
  }

  // ----- AnalysisRunNotificationDispatchService: configuration

  /** The five settings the service reads; `None` where the setting is absent. */
  datatype DispatchSettings = DispatchSettings(
    timeoutSeconds: Option<int>,
    maxResponseChars: Option<int>,
    maxAttempts: Option<int>,
    retryBaseSeconds: Option<int>,
    retryMaxSeconds: Option<int>)

  datatype DispatchConfig = DispatchConfig(
    timeoutSeconds: int,
    maxResponseChars: int,
    maxAttempts: int,
    retryBase: int,
    retryMax: int)

  const DefaultTimeoutSeconds: int := 10
  const DefaultMaxResponseChars: int := 1500
  const DefaultMaxAttempts: int := 3
  const DefaultRetryBaseSeconds: int := 30
  const DefaultRetryMaxSeconds: int := 900

  /** The bounds the service's constructor establishes. */
  predicate ConfigValid(c: DispatchConfig) {
    c.timeoutSeconds >= 1 && c.maxResponseChars >= 200 && c.maxAttempts >= 1
    && c.retryBase >= 1 && c.retryMax >= c.retryBase
  }

  /**
   * The constructor's clamps: each setting (or its default) is kept when it meets its lower
   * bound and raised to the bound otherwise; the retry ceiling's bound is the clamped base.
   */
  function ClampConfig(s: DispatchSettings): (c: DispatchConfig)
    ensures ConfigValid(c)
    ensures s.timeoutSeconds.GetOr(DefaultTimeoutSeconds) >= 1 ==> c.timeoutSeconds == s.timeoutSeconds.GetOr(DefaultTimeoutSeconds)
    ensures s.maxResponseChars.GetOr(DefaultMaxResponseChars) >= 200 ==> c.maxResponseChars == s.maxResponseChars.GetOr(DefaultMaxResponseChars)
    ensures s.maxAttempts.GetOr(DefaultMaxAttempts) >= 1 ==> c.maxAttempts == s.maxAttempts.GetOr(DefaultMaxAttempts)
    ensures s.retryBaseSeconds.GetOr(DefaultRetryBaseSeconds) >= 1 ==> c.retryBase == s.retryBaseSeconds.GetOr(DefaultRetryBaseSeconds)
    ensures s.retryMaxSeconds.GetOr(DefaultRetryMaxSeconds) >= c.retryBase ==> c.retryMax == s.retryMaxSeconds.GetOr(DefaultRetryMaxSeconds)
    ensures c.timeoutSeconds <= Max(1, s.timeoutSeconds.GetOr(DefaultTimeoutSeconds))
    ensures c.retryMax == c.retryBase || c.retryMax == s.retryMaxSeconds.GetOr(DefaultRetryMaxSeconds)
    ensures s == DispatchSettings(None, None, None, None, None) ==> c == DispatchConfig(10, 1500, 3, 30, 900)
  {
    var base := Max(1, s.retryBaseSeconds.GetOr(DefaultRetryBaseSeconds));
    DispatchConfig(
      Max(1, s.timeoutSeconds.GetOr(DefaultTimeoutSeconds)),
      Max(200, s.maxResponseChars.GetOr(DefaultMaxResponseChars)),
      Max(1, s.maxAttempts.GetOr(DefaultMaxAttempts)),
      base,
      Max(base, s.retryMaxSeconds.GetOr(DefaultRetryMaxSeconds)))
  }

  // ----- events and backoff

  /** `event_type_for_status`: the three terminal statuses raise `analysis_run.<status>`, every other raises none. */
  function EventTypeForStatus(status: RunStatus): (e: Option<string>)
    ensures e.Some? <==> status in {RunCompleted, RunFailed, RunCanceled}
    ensures e.Some? ==> e.value in AllowedEventTypes
    ensures e.Some? ==> e.value == "analysis_run." + RunStatusValue(status)
  {
    match status
    case RunCompleted => Some(EventCompleted)
    case RunFailed => Some(EventFailed)
    case RunCanceled => Some(EventCanceled)
    case _ => None
  }

  /** Different terminal statuses raise different events. */
  lemma EventTypesDistinct(a: RunStatus, b: RunStatus)
    requires EventTypeForStatus(a).Some? && EventTypeForStatus(a) == EventTypeForStatus(b)
    ensures a == b
  {
  }

  function Pow2(n: nat): (r: nat)
    ensures r >= 1
  {
    if n == 0 then 1 else 2 * Pow2(n - 1)
  }

  /**
   * `_retry_delay_seconds`: no retry once the attempts are used up; otherwise the base delay
   * doubled for every attempt after the first, capped at the ceiling.
   */
  function RetryDelay(c: DispatchConfig, attemptCount: int, maxAttempts: int): (r: Option<int>)
    ensures r.None? <==> attemptCount >= maxAttempts
    ensures r.Some? ==> r.value <= c.retryMax && r.value <= c.retryBase * Pow2(Max(0, attemptCount - 1))
    ensures r.Some? ==> r.value == c.retryMax || r.value == c.retryBase * Pow2(Max(0, attemptCount - 1))
    ensures r.Some? && ConfigValid(c) ==> 1 <= r.value
  {
    if attemptCount >= maxAttempts then None
    else Some(Min(c.retryMax, c.retryBase * Pow2(Max(0, attemptCount - 1))))
  }

  /**
   * Exponential backoff: each further attempt doubles the previous delay until the ceiling
   * caps it.
   */
  lemma RetryDelayDoubles(c: DispatchConfig, n: int, maxAttempts: int)
    requires ConfigValid(c) && 1 <= n && n + 1 < maxAttempts
    ensures RetryDelay(c, n + 1, maxAttempts).value == Min(c.retryMax, 2 * RetryDelay(c, n, maxAttempts).value)
  {
    var p := Pow2(n - 1);
    assert Pow2(n) == 2 * p;
    assert c.retryBase * Pow2(n) == 2 * (c.retryBase * p);
  }

  /** The first failed attempt asks for a retry after exactly the base delay. */
  lemma FirstRetryIsBase(c: DispatchConfig, maxAttempts: int)
    requires ConfigValid(c) && 1 < maxAttempts
    ensures RetryDelay(c, 1, maxAttempts) == Some(c.retryBase)
  {
  }

  /** `_min_delay`: the smaller of the current delay, if any, and the candidate. */
  function MinDelay(current: Option<int>, candidate: int): (r: int)
    ensures r <= candidate && (current.Some? ==> r <= current.value)
    ensures r == candidate || current == Some(r)
  {
    if current.None? then candidate else Min(current.value, candidate)
  }

  /** `now + timedelta(seconds=delay) if delay else None`: a zero or missing delay schedules nothing. */
  function NextRetryAt(now: Instant, delay: Option<int>): (r: Option<Instant>)
    ensures r.Some? <==> delay.Some? && delay.value != 0
    ensures r.Some? ==> r.value == now + Seconds(delay.value)
  {
    if delay.Some? && delay.value != 0 then Some(now + Seconds(delay.value)) else None
  }

  // ----- one attempt

  /** The status code and text of an HTTP response. */
  datatype HttpReply = HttpReply(statusCode: nat, text: string)

  /**
   * What one attempt runs into: the clock reading `_deliver` takes, the outcome of decrypting
   * the signing secret (consulted only for a non-empty ciphertext) and the outcome of the POST
   * (an `Err` for a `RequestException`, with its message).
   */
  datatype NetworkOutcome = NetworkOutcome(at: Instant, decrypted: Result<string, string>, response: Result<HttpReply, string>)

  /** A POST the service sends. */
  datatype PostedRequest = PostedRequest(endpointId: EndpointId, url: string, headers: map<string, string>,
                                         body: string, timeoutSeconds: int)

  const SignatureHeader: string := "X-Agentic-Signature"

  /** `_normalized_headers`: the endpoint's extra headers, none when the stored JSON is not an object. */
  function NormalizedHeaders(headers: Option<map<string, string>>): map<string, string> {
    if headers.Some? then headers.value else map[]
  }

  /** The four fixed header names and the signature header are five different keys. */
  lemma FixedHeaderNamesDistinct()
    ensures "Content-Type" != "X-Agentic-Event" && "Content-Type" != "X-Agentic-Delivery-Id"
            && "Content-Type" != "X-Agentic-Run-Id" && "Content-Type" != SignatureHeader
    ensures "X-Agentic-Event" != "X-Agentic-Delivery-Id" && "X-Agentic-Event" != "X-Agentic-Run-Id"
            && "X-Agentic-Event" != SignatureHeader
    ensures "X-Agentic-Delivery-Id" != "X-Agentic-Run-Id" && "X-Agentic-Delivery-Id" != SignatureHeader
    ensures "X-Agentic-Run-Id" != SignatureHeader
  {
    assert "Content-Type"[0] == 'C' && "X-Agentic-Event"[0] == 'X' && "X-Agentic-Delivery-Id"[0] == 'X'
           && "X-Agentic-Run-Id"[0] == 'X' && SignatureHeader[0] == 'X';
    assert "X-Agentic-Event"[10] == 'E' && "X-Agentic-Delivery-Id"[10] == 'D' && "X-Agentic-Run-Id"[10] == 'R'
           && SignatureHeader[10] == 'S';
  }

  /**
   * The headers of the POST: the four fixed ones, overridden by the endpoint's own headers,
   * and then the signature over the body when the secret is non-empty.
   */
  function RequestHeaders(e: WebhookEndpoint, d: Delivery, eventType: string, secret: string, body: string,
                          sign: (string, string) -> string): (h: map<string, string>)
    ensures secret != "" ==> SignatureHeader in h && h[SignatureHeader] == "sha256=" + sign(secret, body)
    ensures secret == "" ==> (SignatureHeader in h <==> SignatureHeader in NormalizedHeaders(e.headers))
    ensures forall k :: k in NormalizedHeaders(e.headers) && k != SignatureHeader ==> k in h && h[k] == NormalizedHeaders(e.headers)[k]
    ensures "X-Agentic-Event" !in NormalizedHeaders(e.headers) ==> "X-Agentic-Event" in h && h["X-Agentic-Event"] == eventType
    ensures "Content-Type" !in NormalizedHeaders(e.headers) ==> "Content-Type" in h && h["Content-Type"] == "application/json"
    ensures "X-Agentic-Delivery-Id" !in NormalizedHeaders(e.headers) ==>
              "X-Agentic-Delivery-Id" in h && h["X-Agentic-Delivery-Id"] == NatToString(d.id)
    ensures "X-Agentic-Run-Id" !in NormalizedHeaders(e.headers) ==>
              "X-Agentic-Run-Id" in h && h["X-Agentic-Run-Id"] == NatToString(d.key.runId)
  {
    FixedHeaderNamesDistinct();
    var fixed := map["Content-Type" := "application/json", "X-Agentic-Event" := eventType,
                     "X-Agentic-Delivery-Id" := NatToString(d.id), "X-Agentic-Run-Id" := NatToString(d.key.runId)];
    var merged := fixed + NormalizedHeaders(e.headers);
    if secret != "" then merged[SignatureHeader := "sha256=" + sign(secret, body)] else merged
  }

  /** `response.text[:max_chars]`. */
  function Truncate(s: string, n: nat): (r: string)
    ensures |r| <= n && |r| <= |s| && r == s[..|r|]
    ensures |s| <= n ==> r == s
    ensures |s| > n ==> |r| == n
  {
    if |s| <= n then s else s[..n]
  }

  function HttpErrorMessage(code: nat): string {
    "Webhook returned HTTP " + NatToString(code) + "."
  }

  /** The saved record, whether the attempt succeeded, the retry delay it reports, and the POST it sent. */
  datatype DeliverOutcome = DeliverOutcome(delivery: Delivery, success: bool, retry: Option<int>, posted: Option<PostedRequest>)

  /** A failed attempt: no status, the error message, and the next retry after the backoff. */
  function FailedAttempt(d: Delivery, c: DispatchConfig, at: Instant, error: string): Delivery {
    d.(success := false, statusCode := None, responseBody := "", errorMessage := error,
       nextRetryAt := NextRetryAt(at, RetryDelay(c, d.attemptCount, d.maxAttempts)))
  }

  /**
   * `_deliver`: every attempt counts, stamps the attempt time and stores the payload; a
   * decryption error sends nothing, a network error or a non-2xx status fails with a retry
   * delay, and a 2xx succeeds and clears the retry state.
   */
  function Deliver(d: Delivery, e: WebhookEndpoint, c: DispatchConfig, eventType: string, payload: string,
                   net: NetworkOutcome, sign: (string, string) -> string): (out: DeliverOutcome)
    requires ConfigValid(c)
    ensures out.delivery.id == d.id && out.delivery.key == d.key && out.delivery.maxAttempts == d.maxAttempts
    ensures out.delivery.attemptCount == d.attemptCount + 1 && out.delivery.lastAttemptAt == Some(net.at)
    ensures out.delivery.requestPayload == payload
    ensures out.delivery.success == out.success
    ensures out.success <==> (Decrypt(e, net.decrypted).Ok? && net.response.Ok?
                              && 200 <= net.response.value.statusCode < 300)
    ensures out.posted.Some? <==> Decrypt(e, net.decrypted).Ok?
    ensures out.posted.Some? ==> out.posted.value.endpointId == e.id && out.posted.value.url == e.callbackUrl
                                 && out.posted.value.body == payload && out.posted.value.timeoutSeconds == c.timeoutSeconds
    ensures out.posted.Some? ==>
              out.posted.value.headers == RequestHeaders(e, d, eventType, Decrypt(e, net.decrypted).value, payload, sign)
    ensures Decrypt(e, net.decrypted).Err? ==> out.delivery.errorMessage == Decrypt(e, net.decrypted).error
    ensures Decrypt(e, net.decrypted).Ok? && net.response.Err? ==> out.delivery.errorMessage == net.response.error
    ensures Decrypt(e, net.decrypted).Ok? && net.response.Ok? && !(200 <= net.response.value.statusCode < 300) ==>
              out.delivery.errorMessage == HttpErrorMessage(net.response.value.statusCode)
    ensures out.posted.Some? && Decrypt(e, net.decrypted).value != "" ==>
              SignatureHeader in out.posted.value.headers
              && out.posted.value.headers[SignatureHeader] == "sha256=" + sign(Decrypt(e, net.decrypted).value, payload)
    ensures out.success ==> out.delivery.deliveredAt == Some(net.at) && out.delivery.nextRetryAt.None?
                            && out.delivery.errorMessage == "" && out.retry.None?
    ensures !out.success ==> out.retry == RetryDelay(c, d.attemptCount + 1, d.maxAttempts)
                             && out.delivery.nextRetryAt == NextRetryAt(net.at, out.retry)
                             && out.delivery.deliveredAt == d.deliveredAt
    ensures out.delivery.statusCode.Some? <==> out.posted.Some? && net.response.Ok?
    ensures out.delivery.statusCode.Some? ==>
              out.delivery.statusCode.value == net.response.value.statusCode
              && out.delivery.responseBody == Truncate(net.response.value.text, c.maxResponseChars)
  {
    var attempt := d.(requestPayload := payload, attemptCount := d.attemptCount + 1, lastAttemptAt := Some(net.at));
    var delay := RetryDelay(c, attempt.attemptCount, attempt.maxAttempts);
    var secret := Decrypt(e, net.decrypted);
    if secret.Err? then
      DeliverOutcome(FailedAttempt(attempt, c, net.at, secret.error), false, delay, None)
    else
      var post := PostedRequest(e.id, e.callbackUrl, RequestHeaders(e, d, eventType, secret.value, payload, sign),
                                payload, c.timeoutSeconds);
      match net.response
      case Err(message) => DeliverOutcome(FailedAttempt(attempt, c, net.at, message), false, delay, Some(post))
      case Ok(reply) =>
        var ok := 200 <= reply.statusCode < 300;
        var answered := attempt.(success := ok, statusCode := Some(reply.statusCode),
                                 responseBody := Truncate(reply.text, c.maxResponseChars),
                                 errorMessage := "", nextRetryAt := None);
        if ok then DeliverOutcome(answered.(deliveredAt := Some(net.at)), true, None, Some(post))
        else
          DeliverOutcome(answered.(errorMessage := HttpErrorMessage(reply.statusCode),
                                   nextRetryAt := NextRetryAt(net.at, delay)), false, delay, Some(post))
  }

  // ----- one endpoint of the fan-out

  /** Everything one dispatch shares across endpoints. */
  datatype DispatchContext = DispatchContext(
    config: DispatchConfig,
    endpoints: map<EndpointId, WebhookEndpoint>,
    runId: RunId,
    eventType: string,
    payload: string,
    now: Instant)

  /** What happened at one endpoint. */
  datatype EndpointOutcome =
    | Unsubscribed
    | AlreadyDelivered
    | Exhausted
    | Waiting(seconds: int)
    | Attempted(success: bool, retry: Option<int>, posted: Option<PostedRequest>)

  /** The outcome at one endpoint with the delivery table and the next delivery id after it. */
  datatype EndpointResult = EndpointResult(outcome: EndpointOutcome, deliveries: map<DeliveryKey, Delivery>, nextDeliveryId: nat)

  /**
   * One pass of the loop body of `dispatch_for_run` for endpoint `id`: an unsubscribed endpoint
   * is passed over without a record; otherwise the (endpoint, run, event) record is fetched or
   * created, then passed over when it already succeeded, has no attempts left, or waits for a
   * later retry, and attempted otherwise.
   */
  function Handle(deliveries: map<DeliveryKey, Delivery>, nextId: nat, ctx: DispatchContext, id: EndpointId,
                  net: NetworkOutcome, sign: (string, string) -> string): (h: EndpointResult)
    requires ConfigValid(ctx.config) && id in ctx.endpoints
    ensures var key := DeliveryKey(id, ctx.runId, ctx.eventType);
            && (h.outcome.Unsubscribed? <==> !SupportsEventType(ctx.endpoints[id], ctx.eventType))
            && (h.outcome.Unsubscribed? ==> h.deliveries == deliveries && h.nextDeliveryId == nextId)
            && (!h.outcome.Unsubscribed? ==> h.deliveries.Keys == deliveries.Keys + {key}
                                             && h.nextDeliveryId == nextId + (if key in deliveries then 0 else 1))
            && (forall k :: k in deliveries && k != key ==> h.deliveries[k] == deliveries[k])
            && (h.outcome.AlreadyDelivered? <==>
                  !h.outcome.Unsubscribed? && key in deliveries && deliveries[key].success)
            && (!h.outcome.Attempted? && key in deliveries ==> h.deliveries[key] == deliveries[key])
            && (h.outcome.Attempted? ==> h.deliveries[key].attemptCount == (if key in deliveries then deliveries[key].attemptCount else 0) + 1)
            && (h.outcome.Attempted? ==> h.outcome.success == h.deliveries[key].success)
            && (h.outcome.Waiting? ==> 1 <= h.outcome.seconds)
  {
    var e := ctx.endpoints[id];
    var key := DeliveryKey(id, ctx.runId, ctx.eventType);
    if !SupportsEventType(e, ctx.eventType) then EndpointResult(Unsubscribed, deliveries, nextId)
    else
      var d := if key in deliveries then deliveries[key] else NewDelivery(nextId, key, ctx.payload, ctx.config.maxAttempts);
      var created := deliveries[key := d];
      var next := if key in deliveries then nextId else nextId + 1;
      if d.success then EndpointResult(AlreadyDelivered, created, next)
      else if d.attemptCount >= d.maxAttempts then EndpointResult(Exhausted, created, next)
      else if d.nextRetryAt.Some? && d.nextRetryAt.value > ctx.now then
        EndpointResult(Waiting(Max(1, WholeSeconds(d.nextRetryAt.value - ctx.now))), created, next)
      else
        var out := Deliver(d, e, ctx.config, ctx.eventType, ctx.payload, net, sign);
        EndpointResult(Attempted(out.success, out.retry, out.posted), created[key := out.delivery], next)
  }

  // ----- the fan-out

  /** The counters of the response, and the reported retry delay. */
  datatype Tally = Tally(attempted: nat, delivered: nat, failed: nat, skipped: nat, nextRetry: Option<int>)

  /** How one endpoint's outcome moves the counters. */
  function Count(t: Tally, o: EndpointOutcome): Tally {
    match o
    case Unsubscribed => t.(skipped := t.skipped + 1)
    case AlreadyDelivered => t.(attempted := t.attempted + 1, skipped := t.skipped + 1)
    case Exhausted => t.(attempted := t.attempted + 1, skipped := t.skipped + 1)
    case Waiting(s) => t.(attempted := t.attempted + 1, skipped := t.skipped + 1, nextRetry := Some(MinDelay(t.nextRetry, s)))
    case Attempted(success, retry, _) =>
      if success then t.(attempted := t.attempted + 1, delivered := t.delivered + 1)
      else t.(attempted := t.attempted + 1, failed := t.failed + 1,
              nextRetry := if retry.Some? then Some(MinDelay(t.nextRetry, retry.value)) else t.nextRetry)
  }

  /** The POSTs one outcome sent. */
  function PostsOf(o: EndpointOutcome): seq<PostedRequest> {
    if o.Attempted? && o.posted.Some? then [o.posted.value] else []
  }

  /** The candidate delays one outcome offers `_min_delay`. */
  function DelaysOf(o: EndpointOutcome): seq<int> {
    match o
    case Waiting(s) => [s]
    case Attempted(success, retry, _) => if !success && retry.Some? then [retry.value] else []
    case _ => []
  }

  /** The state of a dispatch: counters, delivery table, next delivery id, POSTs sent and candidate delays seen. */
  datatype Fanout = Fanout(tally: Tally, deliveries: map<DeliveryKey, Delivery>, nextDeliveryId: nat,
                           posts: seq<PostedRequest>, delays: seq<int>)

  function Start(deliveries: map<DeliveryKey, Delivery>, nextId: nat): Fanout {
    Fanout(Tally(0, 0, 0, 0, None), deliveries, nextId, [], [])
  }

  /** The loop of `dispatch_for_run` over the endpoint ids `ids`, in order. */
  function FanoutOver(f: Fanout, ctx: DispatchContext, ids: seq<EndpointId>,
                      net: EndpointId -> NetworkOutcome, sign: (string, string) -> string): Fanout
    requires ConfigValid(ctx.config) && forall i :: 0 <= i < |ids| ==> ids[i] in ctx.endpoints
  {
    if |ids| == 0 then f
    else Next(FanoutOver(f, ctx, ids[..|ids| - 1], net, sign), ctx, ids[|ids| - 1], net, sign)
  }

  /** The state after handling endpoint `id`. */
  function Next(g: Fanout, ctx: DispatchContext, id: EndpointId,
                net: EndpointId -> NetworkOutcome, sign: (string, string) -> string): Fanout
    requires ConfigValid(ctx.config) && id in ctx.endpoints
  {
    var h := Handle(g.deliveries, g.nextDeliveryId, ctx, id, net(id), sign);
    Fanout(Count(g.tally, h.outcome), h.deliveries, h.nextDeliveryId, g.posts + PostsOf(h.outcome), g.delays + DelaysOf(h.outcome))
  }

  /** How many of `ids` are endpoints subscribed to the event. */
  function Subscribed(ctx: DispatchContext, ids: seq<EndpointId>): (n: nat)
    requires forall i :: 0 <= i < |ids| ==> ids[i] in ctx.endpoints
    ensures n <= |ids|
  {
    if |ids| == 0 then 0
    else Subscribed(ctx, ids[..|ids| - 1]) + (if SupportsEventType(ctx.endpoints[ids[|ids| - 1]], ctx.eventType) then 1 else 0)
  }

  /**
   * Every endpoint lands in exactly one of delivered, failed and skipped, and exactly the
   * subscribed ones count as attempted.
   */
  lemma {:induction false} FanoutCounts(f: Fanout, ctx: DispatchContext, ids: seq<EndpointId>,
                                        net: EndpointId -> NetworkOutcome, sign: (string, string) -> string)
    requires ConfigValid(ctx.config) && forall i :: 0 <= i < |ids| ==> ids[i] in ctx.endpoints
    ensures var r := FanoutOver(f, ctx, ids, net, sign);
            && r.tally.delivered + r.tally.failed + r.tally.skipped
               == f.tally.delivered + f.tally.failed + f.tally.skipped + |ids|
            && r.tally.attempted == f.tally.attempted + Subscribed(ctx, ids)
  {
    if |ids| > 0 {
      FanoutCounts(f, ctx, ids[..|ids| - 1], net, sign);
    }
  }

  /** The reported delay is the least candidate delay, and there is none exactly when there was no candidate. */
  ghost predicate IsMinimum(retry: Option<int>, delays: seq<int>) {
    (retry.None? <==> |delays| == 0)
    && (retry.Some? ==> retry.value in delays && forall i :: 0 <= i < |delays| ==> retry.value <= delays[i])
  }

  ghost predicate RetryIsMinimum(f: Fanout) {
    IsMinimum(f.tally.nextRetry, f.delays)
  }

  /** Counting one outcome folds its candidate delay into the minimum with `_min_delay`. */
  lemma CountKeepsMinimum(t: Tally, delays: seq<int>, o: EndpointOutcome)
    requires IsMinimum(t.nextRetry, delays)
    ensures IsMinimum(Count(t, o).nextRetry, delays + DelaysOf(o))
  {
    var ds := delays + DelaysOf(o);
    if |DelaysOf(o)| == 1 {
      assert ds[|delays|] == DelaysOf(o)[0];
      forall i | 0 <= i < |ds| ensures Count(t, o).nextRetry.value <= ds[i] {
        if i < |delays| { assert ds[i] == delays[i]; }
      }
    } else {
      assert ds == delays;
    }
  }

  lemma {:induction false} FanoutRetryIsMinimum(f: Fanout, ctx: DispatchContext, ids: seq<EndpointId>,
                                                net: EndpointId -> NetworkOutcome, sign: (string, string) -> string)
    requires ConfigValid(ctx.config) && forall i :: 0 <= i < |ids| ==> ids[i] in ctx.endpoints
    requires RetryIsMinimum(f)
    ensures RetryIsMinimum(FanoutOver(f, ctx, ids, net, sign))
  {
    if |ids| > 0 {
      FanoutRetryIsMinimum(f, ctx, ids[..|ids| - 1], net, sign);
      var g := FanoutOver(f, ctx, ids[..|ids| - 1], net, sign);
      var id := ids[|ids| - 1];
      CountKeepsMinimum(g.tally, g.delays, Handle(g.deliveries, g.nextDeliveryId, ctx, id, net(id), sign).outcome);
    }
  }

  /** The keys of the delivery records the fan-out adds: those of the subscribed endpoints. */
  function KeysFor(ctx: DispatchContext, ids: seq<EndpointId>): set<DeliveryKey>
    requires forall i :: 0 <= i < |ids| ==> ids[i] in ctx.endpoints
  {
    set i | 0 <= i < |ids| && SupportsEventType(ctx.endpoints[ids[i]], ctx.eventType) :: DeliveryKey(ids[i], ctx.runId, ctx.eventType)
  }

  /**
   * One delivery record per (endpoint, run, event): the fan-out adds exactly one for each
   * subscribed endpoint that had none, and none for an unsubscribed endpoint.
   */
  lemma {:induction false} FanoutKeys(f: Fanout, ctx: DispatchContext, ids: seq<EndpointId>,
                                      net: EndpointId -> NetworkOutcome, sign: (string, string) -> string)
    requires ConfigValid(ctx.config) && forall i :: 0 <= i < |ids| ==> ids[i] in ctx.endpoints
    ensures FanoutOver(f, ctx, ids, net, sign).deliveries.Keys == f.deliveries.Keys + KeysFor(ctx, ids)
  {
    if |ids| > 0 {
      var pre := ids[..|ids| - 1];
      FanoutKeys(f, ctx, pre, net, sign);
      KeysForSnoc(ctx, ids);
    }
  }

  /** The keys for a list are those for all but its last endpoint, plus the last one's when it is subscribed. */
  lemma KeysForSnoc(ctx: DispatchContext, ids: seq<EndpointId>)
    requires |ids| > 0 && forall i :: 0 <= i < |ids| ==> ids[i] in ctx.endpoints
    ensures var id := ids[|ids| - 1];
            KeysFor(ctx, ids) == KeysFor(ctx, ids[..|ids| - 1])
                                 + (if SupportsEventType(ctx.endpoints[id], ctx.eventType) then {DeliveryKey(id, ctx.runId, ctx.eventType)} else {})
  {
    var pre := ids[..|ids| - 1];
    forall i | 0 <= i < |pre| ensures pre[i] == ids[i] { }
  }

  /**
   * A dispatch in which every subscribed endpoint's record has already succeeded sends no
   * POST, changes no record and creates none: re-dispatching a delivered run is harmless.
   */
  lemma {:induction false} SettledFanoutIsQuiet(f: Fanout, ctx: DispatchContext, ids: seq<EndpointId>,
                                                net: EndpointId -> NetworkOutcome, sign: (string, string) -> string)
    requires ConfigValid(ctx.config) && forall i :: 0 <= i < |ids| ==> ids[i] in ctx.endpoints
    requires forall i :: 0 <= i < |ids| && SupportsEventType(ctx.endpoints[ids[i]], ctx.eventType) ==>
               DeliveryKey(ids[i], ctx.runId, ctx.eventType) in f.deliveries
               && f.deliveries[DeliveryKey(ids[i], ctx.runId, ctx.eventType)].success
    ensures var r := FanoutOver(f, ctx, ids, net, sign);
            r.deliveries == f.deliveries && r.nextDeliveryId == f.nextDeliveryId && r.posts == f.posts
            && r.tally.delivered == f.tally.delivered && r.tally.failed == f.tally.failed
  {
    if |ids| > 0 {
      var pre := ids[..|ids| - 1];
      forall i | 0 <= i < |pre| ensures pre[i] == ids[i] { }
      SettledFanoutIsQuiet(f, ctx, pre, net, sign);
      var g := FanoutOver(f, ctx, pre, net, sign);
      var id := ids[|ids| - 1];
      var h := Handle(g.deliveries, g.nextDeliveryId, ctx, id, net(id), sign);
      var key := DeliveryKey(id, ctx.runId, ctx.eventType);
      if SupportsEventType(ctx.endpoints[id], ctx.eventType) {
        assert h.outcome.AlreadyDelivered?;
        assert h.deliveries == g.deliveries;
      }
    }
  }

  /**
   * Dispatching twice to one endpoint whose first POST answered 2xx: the second dispatch
   * sends nothing more and leaves the one record as the first left it.
   */
  lemma SecondDispatchAfterSuccess(f: Fanout, ctx: DispatchContext, id: EndpointId,
                                   first: EndpointId -> NetworkOutcome, second: EndpointId -> NetworkOutcome,
                                   sign: (string, string) -> string)
    requires ConfigValid(ctx.config) && id in ctx.endpoints
    requires FanoutOver(f, ctx, [id], first, sign).tally.delivered == f.tally.delivered + 1
    ensures var once := FanoutOver(f, ctx, [id], first, sign);
            var twice := FanoutOver(once, ctx, [id], second, sign);
            && |once.posts| == |f.posts| + 1
            && twice.posts == once.posts && twice.deliveries == once.deliveries
            && DeliveryKey(id, ctx.runId, ctx.eventType) in twice.deliveries
  {
    assert [id][..0] == [];
    var once := FanoutOver(f, ctx, [id], first, sign);
    var h := Handle(f.deliveries, f.nextDeliveryId, ctx, id, first(id), sign);
    assert h.outcome.Attempted? && h.outcome.success;
    SettledFanoutIsQuiet(once, ctx, [id], second, sign);
  }

  // ----- dispatch_for_run

  /** The dictionary `dispatch_for_run` returns. */
  datatype DispatchSummary =
    | NotFinal(reason: string)
    | Dispatched(eventType: string, attempted: nat, delivered: nat, failed: nat, skipped: nat,
                 retryScheduledInSeconds: Option<int>)

  function NotFinalReason(s: RunStatus): string {
    "run status '" + RunStatusValue(s) + "' is not final"
  }

  /** `_active_endpoints_for_owner`: the ids below `bound` of the owner's active endpoints, ascending. */
  function ActiveEndpointIds(endpoints: map<EndpointId, WebhookEndpoint>, owner: UserId, bound: nat): (r: seq<EndpointId>)
    ensures forall i :: 0 <= i < |r| ==> r[i] < bound && r[i] in endpoints
                                         && endpoints[r[i]].isActive && endpoints[r[i]].ownerId == owner
    ensures forall i, j :: 0 <= i < j < |r| ==> r[i] < r[j]
    ensures forall id :: id in endpoints && id < bound && endpoints[id].isActive && endpoints[id].ownerId == owner ==> id in r
  {
    if bound == 0 then []
    else
      var rest := ActiveEndpointIds(endpoints, owner, bound - 1);
      var id := bound - 1;
      if id in endpoints && endpoints[id].isActive && endpoints[id].ownerId == owner then rest + [id] else rest
  }

  /** With every endpoint below the next fresh id, the walk covers exactly the owner's active endpoints. */
  lemma ActiveEndpointsAreAll(endpoints: map<EndpointId, WebhookEndpoint>, owner: UserId, nextId: nat)
    requires EndpointsValid(endpoints, nextId)
    ensures forall id :: id in ActiveEndpointIds(endpoints, owner, nextId) <==>
              id in endpoints && endpoints[id].isActive && endpoints[id].ownerId == owner
  {
  }

  /** The result of the loop of `dispatch_for_run` for a run whose status raises `eventType`. */
  function DispatchOutcome(deliveries: map<DeliveryKey, Delivery>, nextId: nat, ctx: DispatchContext, owner: UserId,
                           bound: nat, net: EndpointId -> NetworkOutcome, sign: (string, string) -> string): Fanout
    requires ConfigValid(ctx.config)
  {
    FanoutOver(Start(deliveries, nextId), ctx, ActiveEndpointIds(ctx.endpoints, owner, bound), net, sign)
  }

  /**
   * The counters of a dispatch add up: every active endpoint is delivered, failed or skipped,
   * at most all of them are attempted, and the reported retry delay is the least candidate.
   */
  lemma DispatchTallies(deliveries: map<DeliveryKey, Delivery>, nextId: nat, ctx: DispatchContext, owner: UserId,
                        bound: nat, net: EndpointId -> NetworkOutcome, sign: (string, string) -> string)
    requires ConfigValid(ctx.config)
    ensures var ids := ActiveEndpointIds(ctx.endpoints, owner, bound);
            var r := DispatchOutcome(deliveries, nextId, ctx, owner, bound, net, sign);
            && r.tally.delivered + r.tally.failed + r.tally.skipped == |ids|
            && r.tally.attempted == Subscribed(ctx, ids) <= |ids|
            && RetryIsMinimum(r)
  {
    var ids := ActiveEndpointIds(ctx.endpoints, owner, bound);
    FanoutCounts(Start(deliveries, nextId), ctx, ids, net, sign);
    FanoutRetryIsMinimum(Start(deliveries, nextId), ctx, ids, net, sign);
  }

  /** One pass of the loop body: the record fetched or created, checked and, when due, attempted and saved. */
  method HandleEndpoint(db: Database, ctx: DispatchContext, id: EndpointId, net: NetworkOutcome,
                        sign: (string, string) -> string) returns (o: EndpointOutcome)
    requires ConfigValid(ctx.config) && id in ctx.endpoints
    modifies db`deliveries, db`nextDeliveryId
    ensures var h := Handle(old(db.deliveries), old(db.nextDeliveryId), ctx, id, net, sign);
            o == h.outcome && db.deliveries == h.deliveries && db.nextDeliveryId == h.nextDeliveryId
  {
    var e := ctx.endpoints[id];
    if !SupportsEventType(e, ctx.eventType) {
      return Unsubscribed;
    }
    var key := DeliveryKey(id, ctx.runId, ctx.eventType);
    var d;
    if key in db.deliveries {
      d := db.deliveries[key];
    } else {
      d := NewDelivery(db.nextDeliveryId, key, ctx.payload, ctx.config.maxAttempts);
      db.deliveries, db.nextDeliveryId := db.deliveries[key := d], db.nextDeliveryId + 1;
    }
    if d.success {
      o := AlreadyDelivered;
    } else if d.attemptCount >= d.maxAttempts {
      o := Exhausted;
    } else if d.nextRetryAt.Some? && d.nextRetryAt.value > ctx.now {
      o := Waiting(Max(1, WholeSeconds(d.nextRetryAt.value - ctx.now)));
    } else {
      var out := Deliver(d, e, ctx.config, ctx.eventType, ctx.payload, net, sign);
      db.deliveries := db.deliveries[key := out.delivery];
      o := Attempted(out.success, out.retry, out.posted);
    }
  }

  /** The counter updates of the loop body for one endpoint's outcome. */
  method Tallied(attempted0: nat, delivered0: nat, failed0: nat, skipped0: nat, nextRetry0: Option<int>, o: EndpointOutcome)
    returns (attempted: nat, delivered: nat, failed: nat, skipped: nat, nextRetry: Option<int>)
    ensures Tally(attempted, delivered, failed, skipped, nextRetry) == Count(Tally(attempted0, delivered0, failed0, skipped0, nextRetry0), o)
  {
    attempted, delivered, failed, skipped, nextRetry := attempted0, delivered0, failed0, skipped0, nextRetry0;
    match o {
      case Unsubscribed =>
        skipped := skipped + 1;
      case AlreadyDelivered =>
        attempted, skipped := attempted + 1, skipped + 1;
      case Exhausted =>
        attempted, skipped := attempted + 1, skipped + 1;
      case Waiting(s) =>
        attempted, skipped := attempted + 1, skipped + 1;
        nextRetry := Some(MinDelay(nextRetry, s));
      case Attempted(success, retry, posted) =>
        attempted := attempted + 1;
        if success {
          delivered := delivered + 1;
        } else {
          failed := failed + 1;
          if retry.Some? {
            nextRetry := Some(MinDelay(nextRetry, retry.value));
          }
        }
    }
  }

  /**
   * `dispatch_for_run(run)` with payload `payload` (the opaque JSON `_build_payload` gives),
   * clock reading `now`, per-endpoint network outcomes `net` and signing function `sign`.
   * A run that is not finished touches nothing; otherwise the owner's active endpoints are
   * handled in id order, the response carries the counters and the least retry delay, and
   * `posts` lists the POSTs sent.
   */
  method DispatchForRun(db: Database, c: DispatchConfig, runId: RunId, payload: string, now: Instant,
                        net: EndpointId -> NetworkOutcome, sign: (string, string) -> string)
    returns (summary: DispatchSummary, posts: seq<PostedRequest>)
    requires ConfigValid(c)
    requires runId in db.runs && db.runs[runId].agentId in db.agents
    modifies db`deliveries, db`nextDeliveryId
    ensures var status := db.runs[runId].status;
            EventTypeForStatus(status).None? ==>
              summary == NotFinal(NotFinalReason(status)) && posts == []
              && db.deliveries == old(db.deliveries) && db.nextDeliveryId == old(db.nextDeliveryId)
    ensures var run := db.runs[runId];
            var ev := EventTypeForStatus(run.status);
            ev.Some? ==>
              var ctx := DispatchContext(c, db.endpoints, runId, ev.value, payload, now);
              var r := DispatchOutcome(old(db.deliveries), old(db.nextDeliveryId), ctx, db.agents[run.agentId].ownerId,
                                       db.nextEndpointId, net, sign);
              && summary == Dispatched(ev.value, r.tally.attempted, r.tally.delivered, r.tally.failed, r.tally.skipped,
                                       r.tally.nextRetry)
              && posts == r.posts && db.deliveries == r.deliveries && db.nextDeliveryId == r.nextDeliveryId
  {
    var run := db.runs[runId];
    var ev := EventTypeForStatus(run.status);
    if ev.None? {
      summary := NotFinal(NotFinalReason(run.status));
      posts := [];
      return;
    }
    var ctx := DispatchContext(c, db.endpoints, runId, ev.value, payload, now);
    var ids := ActiveEndpointIds(db.endpoints, db.agents[run.agentId].ownerId, db.nextEndpointId);
    var t;
    t, posts := FanOut(db, ctx, ids, net, sign);
    summary := Dispatched(ev.value, t.attempted, t.delivered, t.failed, t.skipped, t.nextRetry);
  }

  /** The loop of `dispatch_for_run` over the endpoints `ids`: the counters, the records and the POSTs sent. */
  method FanOut(db: Database, ctx: DispatchContext, ids: seq<EndpointId>,
                net: EndpointId -> NetworkOutcome, sign: (string, string) -> string)
    returns (t: Tally, posts: seq<PostedRequest>)
    requires ConfigValid(ctx.config) && forall i :: 0 <= i < |ids| ==> ids[i] in ctx.endpoints
    modifies db`deliveries, db`nextDeliveryId
    ensures var r := FanoutOver(Start(old(db.deliveries), old(db.nextDeliveryId)), ctx, ids, net, sign);
            t == r.tally && posts == r.posts && db.deliveries == r.deliveries && db.nextDeliveryId == r.nextDeliveryId
  {
    ghost var start := Start(db.deliveries, db.nextDeliveryId);
    var attempted, delivered, failed, skipped := 0, 0, 0, 0;
    var nextRetry: Option<int> := None;
    posts := [];
    ghost var delays: seq<int> := [];
    var i := 0;
    while i < |ids|
      invariant 0 <= i <= |ids|
      invariant Fanout(Tally(attempted, delivered, failed, skipped, nextRetry), db.deliveries, db.nextDeliveryId, posts, delays)
                == FanoutOver(start, ctx, ids[..i], net, sign)
    {
      assert ids[..i + 1][..i] == ids[..i];
      ghost var before := FanoutOver(start, ctx, ids[..i], net, sign);
      assert FanoutOver(start, ctx, ids[..i + 1], net, sign) == Next(before, ctx, ids[i], net, sign);
      var o := HandleEndpoint(db, ctx, ids[i], net(ids[i]), sign);
      assert Next(before, ctx, ids[i], net, sign)
             == Fanout(Count(before.tally, o), db.deliveries, db.nextDeliveryId, posts + PostsOf(o), delays + DelaysOf(o));
      attempted, delivered, failed, skipped, nextRetry := Tallied(attempted, delivered, failed, skipped, nextRetry, o);
      posts := posts + PostsOf(o);
      delays := delays + DelaysOf(o);
      i := i + 1;
    }
    assert ids[..i] == ids;
    t := Tally(attempted, delivered, failed, skipped, nextRetry);
  }
}
