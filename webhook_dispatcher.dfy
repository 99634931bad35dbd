/**
 * The webhook dispatcher: polls due deliveries, signs and posts each one, and
 * records the outcome with bounded retries and a backoff table.
 *
 * The HTTP exchange is an input (`exchange`, from the request sent to the
 * outcome observed); HMAC-SHA256 is an input (`hmac`, `None` when the MAC
 * engine throws).
 */
module WebhookDispatch {
  import opened Common
  import opened Domain
  import opened WebhookDeliveries

  /** Failed attempts after which a delivery is given up. */
  const MaxRetries: int := 5
  /** Delay, in seconds, indexed by the retry count capped at 4. */
  const BackoffSeconds: seq<int> := [0, 30, 120, 600, 3600]
  const DefaultSecret: string := "default-secret"
  const ResponseBodyLimit: nat := 1000

  /** `truncate(str, maxLength)`: null stays null; a longer text keeps its first `maxLength` characters. */
  function Truncate(s: Option<string>, maxLength: nat): (r: Option<string>)
    ensures r.None? <==> s.None?
    ensures r.Some? ==> |r.value| <= maxLength && r.value <= s.value
    ensures r.Some? ==> (|s.value| <= maxLength <==> r.value == s.value)
    ensures r.Some? && |s.value| > maxLength ==> r.value == s.value[..maxLength]
  {
    match s
    case None => None
    case Some(text) => if |text| > maxLength then Some(text[..maxLength]) else Some(text)
  }

  /** The delay scheduled after the `retryCount`-th failure. */
  function BackoffDelay(retryCount: nat): int {
    BackoffSeconds[if retryCount < |BackoffSeconds| - 1 then retryCount else |BackoffSeconds| - 1]
  }

  /**
   * After a failure the delays are 30 s, 2 min, 10 min and 1 h, never the
   * table's leading 0, and they never shrink as failures accumulate.
   */
  lemma RetryDelays(retryCount: nat)
    requires 1 <= retryCount < MaxRetries
    ensures BackoffDelay(retryCount) == [30, 120, 600, 3600][retryCount - 1]
    ensures BackoffDelay(retryCount) > 0
    ensures retryCount > 1 ==> BackoffDelay(retryCount - 1) < BackoffDelay(retryCount)
  {
  }

  /**
   * `handleFailure(delivery, errorMessage)`: one more failure is counted and
   * its message kept (truncated). At `MaxRetries` the delivery is exhausted and
   * its retry time left as it was; before that it is failed and rescheduled
   * by the backoff table.
   */
  function HandleFailure(d: WebhookDelivery, errorMessage: Option<string>, now: Instant): (r: WebhookDelivery)
    requires d.retryCount >= 0
    ensures r.retryCount == d.retryCount + 1
    ensures r.lastAttemptAt == Some(now) && r.responseBody == Truncate(errorMessage, ResponseBodyLimit)
    ensures r.status == Exhausted <==> r.retryCount >= MaxRetries
    ensures r.status == Exhausted || r.status == WebhookFailed
    ensures r.status == Exhausted ==> r.nextRetryAt == d.nextRetryAt
    ensures r.status == WebhookFailed ==> r.nextRetryAt == Some(now + BackoffDelay(r.retryCount))
    ensures r.id == d.id && r.eventId == d.eventId && r.merchantId == d.merchantId
    ensures r.targetUrl == d.targetUrl && r.payload == d.payload
    ensures r.responseCode == d.responseCode && r.createdAt == d.createdAt
  {
    var counted := d.(retryCount := d.retryCount + 1, lastAttemptAt := Some(now),
                      responseBody := Truncate(errorMessage, ResponseBodyLimit));
    if counted.retryCount >= MaxRetries then counted.(status := Exhausted)
    else counted.(status := WebhookFailed, nextRetryAt := Some(now + BackoffDelay(counted.retryCount)))
  }

  /** `k` failures in a row, all observed at `now`. */
  function FailRepeatedly(d: WebhookDelivery, k: nat, now: Instant): (r: WebhookDelivery)
    requires d.retryCount >= 0
    ensures r.retryCount >= d.retryCount
    decreases k
  {
    if k == 0 then d else HandleFailure(FailRepeatedly(d, k - 1, now), None, now)
  }

  /**
   * A new delivery that keeps failing is retried four times and given up on
   * the fifth failure: its count is exactly the number of failures.
   */
  lemma {:induction false} FailuresExhaustAtFive(d: WebhookDelivery, k: nat, now: Instant)
    requires d.retryCount == 0
    ensures FailRepeatedly(d, k, now).retryCount == k
    ensures 1 <= k < MaxRetries ==> FailRepeatedly(d, k, now).status == WebhookFailed
    ensures k >= MaxRetries ==> FailRepeatedly(d, k, now).status == Exhausted
  {
    if k > 0 {
      FailuresExhaustAtFive(d, k - 1, now);
    }
  }

  /**
   * What the HTTP client reported: a response, a client exception with its
   * message, or another exception (an unusable target URL, say), which the
   * dispatcher does not catch.
   */
  datatype HttpOutcome =
    | Responded(code: int, body: Option<string>, statusText: string)
    | ClientFailure(message: Option<string>)
    | Escaped(failure: RuntimeFailure, message: Option<string>)

  predicate Is2xx(code: int) {
    200 <= code <= 299
  }

  /**
   * The delivery as saved after one dispatch. A response is recorded (code,
   * truncated body, attempt time); a 2xx response delivers it, any other
   * response and any client exception take the failure path.
   */
  function AfterDispatch(d: WebhookDelivery, outcome: HttpOutcome, now: Instant): (r: WebhookDelivery)
    requires d.retryCount >= 0 && !outcome.Escaped?
    ensures r.status == Delivered <==> outcome.Responded? && Is2xx(outcome.code)
    ensures r.status != WebhookPending
    ensures r.retryCount == if r.status == Delivered then d.retryCount else d.retryCount + 1
    ensures r.lastAttemptAt == Some(now)
    ensures r.responseCode == if outcome.Responded? then Some(outcome.code) else d.responseCode
    ensures r.status == Delivered ==> r.responseBody == Truncate(outcome.body, ResponseBodyLimit)
    ensures r.id == d.id && r.payload == d.payload && r.targetUrl == d.targetUrl
  {
    match outcome
    case Responded(code, body, statusText) =>
      var recorded := d.(responseCode := Some(code), responseBody := Truncate(body, ResponseBodyLimit),
                         lastAttemptAt := Some(now));
      if Is2xx(code) then recorded.(status := Delivered)
      else HandleFailure(recorded, Some("Non-2xx response: " + statusText), now)
    case ClientFailure(message) =>
      HandleFailure(d, message, now)
  }

  /**
   * The outcome handling with every exception caught: an exception other
   * than a client exception takes the failure path as well, so the row is
   * counted and rescheduled instead of being left unsaved.
   */
  function AfterDispatchCatchingAll(d: WebhookDelivery, outcome: HttpOutcome, now: Instant): (r: WebhookDelivery)
    requires d.retryCount >= 0
    ensures r.status == Delivered <==> outcome.Responded? && Is2xx(outcome.code)
    ensures r.status != WebhookPending
    ensures r.status != Delivered ==> r.retryCount == d.retryCount + 1
    ensures r.status == WebhookFailed ==> r.nextRetryAt.Some? && r.nextRetryAt.value > now
    ensures !outcome.Escaped? ==> r == AfterDispatch(d, outcome, now)
  {
    match outcome
    case Escaped(_, message) =>
      var r := HandleFailure(d, message, now);
      assert r.status == WebhookFailed ==> BackoffDelay(r.retryCount) > 0 by {
        if r.status == WebhookFailed {
          RetryDelays(r.retryCount);
        }
      }
      r
    case _ => AfterDispatch(d, outcome, now)
  }

  /** The signing secret: the merchant's configured secret, else the default. */
  function SigningSecret(configs: seq<MerchantConfig>, merchantId: string): (secret: string)
    ensures var c := FindMerchantConfig(configs, merchantId);
      secret == if c.Some? && c.value.webhookSecret.Some? then c.value.webhookSecret.value else DefaultSecret
  {
    var c := FindMerchantConfig(configs, merchantId);
    if c.Some? && c.value.webhookSecret.Some? then c.value.webhookSecret.value else DefaultSecret
  }

  /** The signed text: the payload, a dot, and a clock reading in milliseconds. */
  datatype SignedContent = SignedContent(payload: WebhookPayload, millis: int)

  /**
   * The signature over `content`. An empty key is refused by the MAC key
   * constructor, and any MAC failure signs with the empty string.
   */
  function Sign(secret: string, content: SignedContent, hmac: (string, SignedContent) -> Option<string>)
    : (signature: string)
    ensures secret == "" ==> signature == ""
    ensures secret != "" && hmac(secret, content).Some? ==> signature == hmac(secret, content).value
    ensures hmac(secret, content).None? ==> signature == ""
  {
    if secret == "" then ""
    else match hmac(secret, content)
      case None => ""
      case Some(mac) => mac
  }

  /** The POST sent to the merchant: body and the three webhook headers. */
  datatype WebhookRequest = WebhookRequest(
    url: string, body: WebhookPayload, webhookId: Uuid, signature: string, timestampMillis: int)

  /** The merchant's check: the signature is the MAC of the body and the timestamp header. */
  predicate Verifies(req: WebhookRequest, secret: string, hmac: (string, SignedContent) -> Option<string>) {
    hmac(secret, SignedContent(req.body, req.timestampMillis)) == Some(req.signature)
  }

  /**
   * The request as the dispatcher builds it: the signature covers one clock
   * reading (`signMillis`) and the timestamp header carries a second one
   * (`headerMillis`), taken a moment later.
   */
  function RequestAsWritten(
    d: WebhookDelivery, configs: seq<MerchantConfig>, hmac: (string, SignedContent) -> Option<string>,
    signMillis: int, headerMillis: int): (req: WebhookRequest)
    ensures req.signature == Sign(SigningSecret(configs, d.merchantId), SignedContent(d.payload, signMillis), hmac)
    ensures req.timestampMillis == headerMillis
    ensures req.url == d.targetUrl && req.body == d.payload && req.webhookId == d.id
  {
    WebhookRequest(d.targetUrl, d.payload, d.id,
      Sign(SigningSecret(configs, d.merchantId), SignedContent(d.payload, signMillis), hmac), headerMillis)
  }

  /**
   * When the clock ticks between the two readings, a merchant checking the
   * signature against the timestamp header rejects a genuine request: the MAC
   * of the two different texts differs.
   */
  lemma TwoClockReadingsBreakVerification(
    d: WebhookDelivery, configs: seq<MerchantConfig>, hmac: (string, SignedContent) -> Option<string>,
    signMillis: int, headerMillis: int)
    requires SigningSecret(configs, d.merchantId) != ""
    requires hmac(SigningSecret(configs, d.merchantId), SignedContent(d.payload, signMillis)).Some?
    requires hmac(SigningSecret(configs, d.merchantId), SignedContent(d.payload, signMillis))
          != hmac(SigningSecret(configs, d.merchantId), SignedContent(d.payload, headerMillis))
    ensures !Verifies(RequestAsWritten(d, configs, hmac, signMillis, headerMillis), SigningSecret(configs, d.merchantId), hmac)
  {
  }

  /** A toy MAC that, like any MAC, tells apart texts that differ in their timestamp. */
  function ToyMac(key: string, content: SignedContent): Option<string> {
    Some(if content.millis == 1000 then "a" else "b")
  }

  /** The two readings 1000 ms and 1001 ms give a request its merchant rejects. */
  lemma ClockTickRejectsRequest(d: WebhookDelivery)
    ensures !Verifies(RequestAsWritten(d, [], ToyMac, 1000, 1001), DefaultSecret, ToyMac)
  {
    TwoClockReadingsBreakVerification(d, [], ToyMac, 1000, 1001);
  }

  /** The request built from a single clock reading used for signature and header alike. */
  function SignedRequest(
    d: WebhookDelivery, configs: seq<MerchantConfig>, hmac: (string, SignedContent) -> Option<string>, millis: int)
    : (req: WebhookRequest)
    ensures req.url == d.targetUrl && req.body == d.payload && req.webhookId == d.id
    ensures req.timestampMillis == millis
  {
    var content := SignedContent(d.payload, millis);
    WebhookRequest(d.targetUrl, d.payload, d.id, Sign(SigningSecret(configs, d.merchantId), content, hmac), millis)
  }

  /** The corrected request is the dispatcher's request with both readings equal. */
  lemma SignedRequestIsOneReading(
    d: WebhookDelivery, configs: seq<MerchantConfig>, hmac: (string, SignedContent) -> Option<string>, millis: int)
    ensures SignedRequest(d, configs, hmac, millis) == RequestAsWritten(d, configs, hmac, millis, millis)
  {
  }

  /** With one reading, the merchant's check accepts every request the MAC could sign. */
  lemma SignedRequestVerifies(
    d: WebhookDelivery, configs: seq<MerchantConfig>, hmac: (string, SignedContent) -> Option<string>, millis: int)
    requires SigningSecret(configs, d.merchantId) != ""
    requires hmac(SigningSecret(configs, d.merchantId), SignedContent(d.payload, millis)).Some?
    ensures Verifies(SignedRequest(d, configs, hmac, millis), SigningSecret(configs, d.merchantId), hmac)
  {
  }

  /** The statuses the dispatcher polls. */
  const PolledStatuses: set<WebhookStatus> := {WebhookPending, WebhookFailed}

  /** Delivered and exhausted deliveries are never polled again. */
  lemma TerminalDeliveriesAreNotPolled(deliveries: seq<WebhookDelivery>, now: Instant)
    ensures forall d | d in FindPendingDeliveries(deliveries, PolledStatuses, now) ::
      d.status != Delivered && d.status != Exhausted
  {
  }

  class WebhookDispatcher {
    const repository: WebhookDeliveryRepository
    /** The merchant configuration table, read only. */
    const configs: seq<MerchantConfig>
    const hmac: (string, SignedContent) -> Option<string>

    constructor(repository: WebhookDeliveryRepository, configs: seq<MerchantConfig>,
                hmac: (string, SignedContent) -> Option<string>)
      ensures this.repository == repository && this.configs == configs && this.hmac == hmac
    {
      this.repository := repository;
      this.configs := configs;
      this.hmac := hmac;
    }

    /** Stored deliveries have non-negative retry counts. */
    predicate Valid()
      reads this, repository
    {
      repository.Valid() && forall i | 0 <= i < |repository.deliveries| :: repository.deliveries[i].retryCount >= 0
    }

    /**
     * `dispatchWebhook(delivery)`: sends the request as the dispatcher builds
     * it, with the signature over the clock reading `signMillis` and the
     * timestamp header from the later reading `headerMillis`. A response or a
     * client exception is recorded and the delivery saved, once, as
     * `AfterDispatch` says; any other exception leaves before the save, so the
     * row stays as it was and the failure is passed on.
     */
    method DispatchWebhook(d: WebhookDelivery, exchange: WebhookRequest -> HttpOutcome, now: Instant,
                           signMillis: int, headerMillis: int)
      returns (sent: WebhookRequest, failure: Option<RuntimeFailure>)
      requires Valid() && d.id < |repository.deliveries| && d.retryCount >= 0
      modifies repository
      ensures Valid()
      ensures sent == RequestAsWritten(d, configs, hmac, signMillis, headerMillis)
      ensures failure.Some? <==> exchange(sent).Escaped?
      ensures exchange(sent).Escaped? ==>
        failure.value == exchange(sent).failure && repository.deliveries == old(repository.deliveries)
      ensures !exchange(sent).Escaped? ==>
        repository.deliveries == old(repository.deliveries)[d.id := AfterDispatch(d, exchange(sent), now)]
    {
      sent := RequestAsWritten(d, configs, hmac, signMillis, headerMillis);
      var outcome := exchange(sent);
      if outcome.Escaped? {
        return sent, Some(outcome.failure);
      }
      repository.Update(AfterDispatch(d, outcome, now));
      failure := None;
    }

    /** The exchange's outcome for `d` with the readings `signClock` and `headerClock` take for it. */
    function OutcomeFor(d: WebhookDelivery, exchange: WebhookRequest -> HttpOutcome,
                        signClock: Uuid -> int, headerClock: Uuid -> int): HttpOutcome
    {
      exchange(RequestAsWritten(d, configs, hmac, signClock(d.id), headerClock(d.id)))
    }

    /**
     * The saved row after dispatching `d`; `signClock` and `headerClock` give
     * the two millisecond readings taken while dispatching each delivery. A
     * delivery whose exchange escapes keeps its row.
     */
    function Dispatched(d: WebhookDelivery, exchange: WebhookRequest -> HttpOutcome, now: Instant,
                        signClock: Uuid -> int, headerClock: Uuid -> int)
      : (r: WebhookDelivery)
      requires d.retryCount >= 0
      ensures r.id == d.id && r.retryCount >= d.retryCount
      ensures OutcomeFor(d, exchange, signClock, headerClock).Escaped? ==> r == d
    {
      var outcome := OutcomeFor(d, exchange, signClock, headerClock);
      if outcome.Escaped? then d else AfterDispatch(d, outcome, now)
    }

    /** The position of the first delivery in `batch` whose exchange escapes, or `|batch|`. */
    function FirstEscape(batch: seq<WebhookDelivery>, exchange: WebhookRequest -> HttpOutcome,
                         signClock: Uuid -> int, headerClock: Uuid -> int): (k: nat)
      ensures k <= |batch|
      ensures forall j | 0 <= j < k :: !OutcomeFor(batch[j], exchange, signClock, headerClock).Escaped?
      ensures k < |batch| ==> OutcomeFor(batch[k], exchange, signClock, headerClock).Escaped?
    {
      if batch == [] then 0
      else if OutcomeFor(batch[0], exchange, signClock, headerClock).Escaped? then 0
      else 1 + FirstEscape(batch[1..], exchange, signClock, headerClock)
    }

    /** `rows` is `start` with exactly the rows in `done` dispatched. */
    predicate DispatchedExactly(start: seq<WebhookDelivery>, done: seq<WebhookDelivery>, rows: seq<WebhookDelivery>,
                                exchange: WebhookRequest -> HttpOutcome, now: Instant,
                                signClock: Uuid -> int, headerClock: Uuid -> int)
    {
      && |rows| == |start|
      && forall k | 0 <= k < |start| ::
           rows[k] == if start[k] in done && start[k].retryCount >= 0
                      then Dispatched(start[k], exchange, now, signClock, headerClock) else start[k]
    }

    lemma {:induction false} DispatchOneMore(start: seq<WebhookDelivery>, done: seq<WebhookDelivery>,
      rows: seq<WebhookDelivery>, d: WebhookDelivery, exchange: WebhookRequest -> HttpOutcome, now: Instant,
      signClock: Uuid -> int, headerClock: Uuid -> int)
      requires forall k | 0 <= k < |start| :: start[k].id == k
      requires DispatchedExactly(start, done, rows, exchange, now, signClock, headerClock)
      requires d in start && d.retryCount >= 0
      ensures d.id < |rows|
      ensures DispatchedExactly(start, done + [d], rows[d.id := Dispatched(d, exchange, now, signClock, headerClock)],
                                exchange, now, signClock, headerClock)
    {
      var k0 :| 0 <= k0 < |start| && start[k0] == d;
      assert d.id == k0;
    }

    /**
     * The batch after the first `i` polled deliveries: none of them escaped,
     * and exactly they are dispatched in `rows`.
     */
    predicate DispatchedPrefix(start: seq<WebhookDelivery>, batch: seq<WebhookDelivery>, i: nat,
                               rows: seq<WebhookDelivery>, exchange: WebhookRequest -> HttpOutcome, now: Instant,
                               signClock: Uuid -> int, headerClock: Uuid -> int)
    {
      && i <= |batch|
      && (forall j | 0 <= j < i :: !OutcomeFor(batch[j], exchange, signClock, headerClock).Escaped?)
      && DispatchedExactly(start, batch[..i], rows, exchange, now, signClock, headerClock)
    }

    /**
     * `rows` is what a poll of `start` leaves: the deliveries before the first
     * escaping one are dispatched, nothing else changes, and `escaped` says
     * whether an exception ended the batch.
     */
    predicate DispatchedBatch(start: seq<WebhookDelivery>, rows: seq<WebhookDelivery>, escaped: bool,
                              exchange: WebhookRequest -> HttpOutcome, now: Instant,
                              signClock: Uuid -> int, headerClock: Uuid -> int)
    {
      var batch := FindPendingDeliveries(start, PolledStatuses, now);
      var k := FirstEscape(batch, exchange, signClock, headerClock);
      && DispatchedExactly(start, batch[..k], rows, exchange, now, signClock, headerClock)
      && (escaped <==> k < |batch|)
    }

    /** Dispatching the next polled delivery, which does not escape, extends the prefix by one. */
    lemma BatchStep(start: seq<WebhookDelivery>, batch: seq<WebhookDelivery>, i: nat, rows: seq<WebhookDelivery>,
                    exchange: WebhookRequest -> HttpOutcome, now: Instant, signClock: Uuid -> int, headerClock: Uuid -> int)
      requires forall k | 0 <= k < |start| :: start[k].id == k && start[k].retryCount >= 0
      requires forall d | d in batch :: d in start
      requires i < |batch| && DispatchedPrefix(start, batch, i, rows, exchange, now, signClock, headerClock)
      requires !OutcomeFor(batch[i], exchange, signClock, headerClock).Escaped?
      ensures batch[i].id < |rows| && batch[i].retryCount >= 0
      ensures DispatchedPrefix(start, batch, i + 1,
        rows[batch[i].id := AfterDispatch(batch[i], OutcomeFor(batch[i], exchange, signClock, headerClock), now)],
        exchange, now, signClock, headerClock)
    {
      var d := batch[i];
      assert d in start;
      TakeOneMore(batch, i);
      DispatchOneMore(start, batch[..i], rows, d, exchange, now, signClock, headerClock);
    }

    /** A prefix that ends at the batch's end or at an escaping delivery is the whole poll. */
    lemma BatchEnds(start: seq<WebhookDelivery>, i: nat, rows: seq<WebhookDelivery>,
                    exchange: WebhookRequest -> HttpOutcome, now: Instant, signClock: Uuid -> int, headerClock: Uuid -> int)
      requires var batch := FindPendingDeliveries(start, PolledStatuses, now);
        && DispatchedPrefix(start, batch, i, rows, exchange, now, signClock, headerClock)
        && (i < |batch| ==> OutcomeFor(batch[i], exchange, signClock, headerClock).Escaped?)
      ensures DispatchedBatch(start, rows, i < |FindPendingDeliveries(start, PolledStatuses, now)|,
                              exchange, now, signClock, headerClock)
    {
      var batch := FindPendingDeliveries(start, PolledStatuses, now);
      FirstEscapeIsFirst(batch, i, exchange, signClock, headerClock);
    }

    /** `FirstEscape` is the position before which nothing escapes and at which, if inside, the exchange escapes. */
    lemma FirstEscapeIsFirst(batch: seq<WebhookDelivery>, i: nat, exchange: WebhookRequest -> HttpOutcome,
                             signClock: Uuid -> int, headerClock: Uuid -> int)
      requires i <= |batch|
      requires forall j | 0 <= j < i :: !OutcomeFor(batch[j], exchange, signClock, headerClock).Escaped?
      requires i < |batch| ==> OutcomeFor(batch[i], exchange, signClock, headerClock).Escaped?
      ensures FirstEscape(batch, exchange, signClock, headerClock) == i
    {
    }

    /**
     * `dispatchWebhooks()`: the polled deliveries are dispatched in order,
     * each once, with its own two clock readings, and saved; every other
     * delivery is left as it was. An exception that escapes a dispatch ends
     * the batch: that delivery and every later one are left as they were, and
     * the failure is passed on.
     */
    method DispatchWebhooks(exchange: WebhookRequest -> HttpOutcome, now: Instant,
                            signClock: Uuid -> int, headerClock: Uuid -> int)
      returns (failure: Option<RuntimeFailure>)
      requires Valid()
      modifies repository
      ensures Valid()
      ensures DispatchedBatch(old(repository.deliveries), repository.deliveries, failure.Some?,
                              exchange, now, signClock, headerClock)
    {
      var start := repository.deliveries;
      var batch := FindPendingDeliveries(start, PolledStatuses, now);
      assert forall k | 0 <= k < |start| :: start[k].id == k && start[k].retryCount >= 0;
      var i := 0;
      assert batch[..0] == [];
      while i < |batch|
        invariant Valid()
        invariant DispatchedPrefix(start, batch, i, repository.deliveries, exchange, now, signClock, headerClock)
      {
        var d := batch[i];
        var rows := repository.deliveries;
        assert d in start && d.id < |rows| && d.retryCount >= 0;
        var sent, escaped := DispatchWebhook(d, exchange, now, signClock(d.id), headerClock(d.id));
        assert exchange(sent) == OutcomeFor(d, exchange, signClock, headerClock);
        if escaped.Some? {
          BatchEnds(start, i, repository.deliveries, exchange, now, signClock, headerClock);
          return escaped;
        }
        BatchStep(start, batch, i, rows, exchange, now, signClock, headerClock);
        i := i + 1;
      }
      BatchEnds(start, i, repository.deliveries, exchange, now, signClock, headerClock);
      return None;
    }

    /**
     * A delivery whose exchange escapes is not saved: a new delivery stays
     * PENDING with no retry time, so it is polled again at every later poll.
     */
    lemma EscapedDeliveryStaysDue(d: WebhookDelivery, exchange: WebhookRequest -> HttpOutcome, now: Instant,
                                  signClock: Uuid -> int, headerClock: Uuid -> int, later: Instant)
      requires d.retryCount >= 0 && d.status == WebhookPending && d.nextRetryAt.None?
      requires OutcomeFor(d, exchange, signClock, headerClock).Escaped?
      ensures Dispatched(d, exchange, now, signClock, headerClock) == d
      ensures d in FindPendingDeliveries([Dispatched(d, exchange, now, signClock, headerClock)], PolledStatuses, later)
    {
    }

    /**
     * A first delivery whose target URL has no scheme makes the client throw
     * outside its own exception family, so the batch stops before the second
     * delivery, whatever that one's URL.
     */
    lemma SchemelessUrlStopsBatch(d1: WebhookDelivery, d2: WebhookDelivery, signClock: Uuid -> int,
                                  headerClock: Uuid -> int)
      requires d1.targetUrl == "merchant.example/hooks"
      ensures FirstEscape([d1, d2], SchemeCheckingExchange, signClock, headerClock) == 0
    {
      var req := RequestAsWritten(d1, configs, hmac, signClock(d1.id), headerClock(d1.id));
      assert req.url[..7] == "merchan";
      assert req.url[..8] == "merchant";
      assert OutcomeFor(d1, SchemeCheckingExchange, signClock, headerClock).Escaped?;
    }
  }

  /**
   * An exchange that, as the HTTP client does, refuses a URL that is not
   * absolute with an exception outside the client exception family, and
   * answers 200 otherwise.
   */
  function SchemeCheckingExchange(req: WebhookRequest): HttpOutcome {
    if |req.url| >= 8 && (req.url[..7] == "http://" || req.url[..8] == "https://") then Responded(200, None, "200 OK")
    else Escaped(OtherRuntime("IllegalArgumentException"), Some("URI is not absolute"))
  }

  /** With every exception caught, an escaping exchange counts a retry and reschedules or exhausts the row. */
  lemma CaughtEscapeIsCounted(d: WebhookDelivery, failure: RuntimeFailure, message: Option<string>, now: Instant)
    requires d.retryCount >= 0
    ensures var r := AfterDispatchCatchingAll(d, Escaped(failure, message), now);
      && r.retryCount == d.retryCount + 1
      && (r.status == WebhookFailed || r.status == Exhausted)
      && (r.status == WebhookFailed ==> !Due(r, now))
  {
  }
}
