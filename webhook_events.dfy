/**
 * The outbox event handler that turns payment events into webhook deliveries
 * for merchants with a configured endpoint.
 */
module WebhookEvents {
  import opened Common
  import opened Domain
  import opened Outbox
  import opened WebhookDeliveries

  /** The event types this handler accepts. */
  const SupportedEvents: set<string> :=
    {"PaymentCreated", "PaymentAuthorized", "PaymentCaptured", "PaymentRefunded", "PaymentFailed"}

  /** `canHandle(eventType)`. */
  predicate CanHandle(eventType: string) {
    eventType in SupportedEvents
  }

  /**
   * Reading `merchantId` out of an event payload: a payment snapshot names its
   * merchant; a payload that does not parse names none.
   */
  function ExtractMerchantId(payload: Payload): (r: Option<string>)
    ensures r.Some? <==> payload.PaymentSnapshot?
  {
    match payload
    case PaymentSnapshot(response) => Some(response.merchantId)
    case Malformed => None
  }

  /** `buildWebhookPayload(event)`. */
  function BuildWebhookPayload(event: OutboxEvent): (p: WebhookPayload)
    ensures p.eventId == event.id && p.eventType == event.eventType
    ensures p.data == event.payload && p.timestamp == event.createdAt
  {
    WebhookPayload(event.id, event.eventType, event.payload, event.createdAt)
  }

  /**
   * The delivery `handle(event)` creates under id `id` at time `now`, if any:
   * none when the payload names no merchant, when the merchant has no
   * configuration, or when its configuration has no webhook URL.
   */
  function DeliveryFor(event: OutboxEvent, configs: seq<MerchantConfig>, id: Uuid, now: Instant)
    : (r: Option<WebhookDelivery>)
    ensures r.Some? <==>
      && ExtractMerchantId(event.payload).Some?
      && FindMerchantConfig(configs, ExtractMerchantId(event.payload).value).Some?
      && FindMerchantConfig(configs, ExtractMerchantId(event.payload).value).value.webhookUrl.Some?
    ensures r.Some? ==>
      && r.value.id == id
      && r.value.eventId == event.id
      && r.value.merchantId == ExtractMerchantId(event.payload).value
      && Some(r.value.targetUrl) == FindMerchantConfig(configs, r.value.merchantId).value.webhookUrl
      && r.value.payload == BuildWebhookPayload(event)
      && r.value.status == WebhookPending
      && r.value.retryCount == 0
      && r.value.responseCode.None? && r.value.responseBody.None?
      && r.value.nextRetryAt.None? && r.value.lastAttemptAt.None?
      && r.value.createdAt == now
  {
    var merchantId := ExtractMerchantId(event.payload);
    if merchantId.None? then None
    else
      var config := FindMerchantConfig(configs, merchantId.value);
      if config.None? || config.value.webhookUrl.None? then None
      else
        Some(WebhookDelivery(
          id, event.id, merchantId.value, config.value.webhookUrl.value, BuildWebhookPayload(event),
          WebhookPending, None, None, 0, None, now, None))
  }

  /** A freshly created delivery is due at once and is picked up by the next poll. */
  lemma {:induction false} NewDeliveryIsPolled(
    event: OutboxEvent, configs: seq<MerchantConfig>, deliveries: seq<WebhookDelivery>, now: Instant, later: Instant)
    requires DeliveryFor(event, configs, |deliveries|, now).Some?
    ensures var d := DeliveryFor(event, configs, |deliveries|, now).value;
      d in FindPendingDeliveries(deliveries + [d], {WebhookPending, WebhookFailed}, later)
  {
    var d := DeliveryFor(event, configs, |deliveries|, now).value;
    assert d in deliveries + [d];
  }

  class WebhookEventHandler {
    /** The merchant configuration table, read only. */
    const configs: seq<MerchantConfig>
    const repository: WebhookDeliveryRepository

    constructor(configs: seq<MerchantConfig>, repository: WebhookDeliveryRepository)
      ensures this.configs == configs && this.repository == repository
    {
      this.configs := configs;
      this.repository := repository;
    }

    /**
     * `handle(event)`: appends the delivery `DeliveryFor` describes, under the
     * next id, or leaves the store as it was.
     */
    method Handle(event: OutboxEvent, now: Instant)
      requires repository.Valid()
      modifies repository
      ensures repository.Valid()
      ensures var made := DeliveryFor(event, configs, |old(repository.deliveries)|, now);
        repository.deliveries == old(repository.deliveries) + (if made.Some? then [made.value] else [])
    {
      var made := DeliveryFor(event, configs, |repository.deliveries|, now);
      if made.Some? {
        repository.Add(made.value);
      }
    }
  }
}
