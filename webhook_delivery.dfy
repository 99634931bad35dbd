/**
 * Webhook deliveries: one row per (event, merchant endpoint) that the
 * dispatcher sends, retries and finally gives up on.
 */
module WebhookDeliveries {
  import opened Common
  import opened Domain
  import opened Sorting
  import opened Outbox

  datatype WebhookStatus = WebhookPending | Delivered | WebhookFailed | Exhausted

  /**
   * The JSON body sent to the merchant: the event id and type, the event's own
   * payload as `data`, and the event's creation time as `timestamp`.
   */
  datatype WebhookPayload = WebhookPayload(eventId: Uuid, eventType: string, data: Payload, timestamp: Instant)

  datatype WebhookDelivery = WebhookDelivery(
    id: Uuid,
    eventId: Uuid,
    merchantId: string,
    targetUrl: string,
    payload: WebhookPayload,
    status: WebhookStatus,
    responseCode: Option<int>,
    responseBody: Option<string>,
    retryCount: int,
    nextRetryAt: Option<Instant>,
    createdAt: Instant,
    lastAttemptAt: Option<Instant>)

  /** The retry gate of the polling query: no retry time yet, or one that has come. */
  predicate Due(d: WebhookDelivery, now: Instant) {
    d.nextRetryAt.None? || d.nextRetryAt.value <= now
  }

  function DeliveryCreatedAt(d: WebhookDelivery): int {
    d.createdAt
  }

  /**
   * `findPendingDeliveries(statuses, now)`: the due deliveries in one of
   * `statuses`, oldest first.
   */
  function FindPendingDeliveries(deliveries: seq<WebhookDelivery>, statuses: set<WebhookStatus>, now: Instant)
    : (r: seq<WebhookDelivery>)
    ensures forall d :: d in r <==> d in deliveries && d.status in statuses && Due(d, now)
    ensures forall i, j | 0 <= i < j < |r| :: r[i].createdAt <= r[j].createdAt
    ensures multiset(r) <= multiset(deliveries)
  {
    var due := Filter(deliveries, (d: WebhookDelivery) => d.status in statuses && Due(d, now));
    SortByMembers(due, DeliveryCreatedAt);
    SortBy(due, DeliveryCreatedAt)
  }

  /** `findByEventId(eventId)`: every delivery made for one event, in table order. */
  function FindByEventId(deliveries: seq<WebhookDelivery>, eventId: Uuid): (r: seq<WebhookDelivery>)
    ensures forall d :: d in r <==> d in deliveries && d.eventId == eventId
    ensures multiset(r) <= multiset(deliveries)
  {
    Filter(deliveries, (d: WebhookDelivery) => d.eventId == eventId)
  }

  /** Stored deliveries; a delivery's id is its position. */
  class WebhookDeliveryRepository {
    var deliveries: seq<WebhookDelivery>

    constructor()
      ensures deliveries == []
    {
      deliveries := [];
    }

    predicate Valid()
      reads this
    {
      forall i | 0 <= i < |deliveries| :: deliveries[i].id == i
    }

    /** Inserts a new delivery under the next id. */
    method Add(d: WebhookDelivery)
      requires Valid() && d.id == |deliveries|
      modifies this
      ensures Valid()
      ensures deliveries == old(deliveries) + [d]
    {
      deliveries := deliveries + [d];
    }

    /** Saves an existing delivery over its stored row. */
    method Update(d: WebhookDelivery)
      requires Valid() && d.id < |deliveries|
      modifies this
      ensures Valid()
      ensures deliveries == old(deliveries)[d.id := d]
    {
      deliveries := deliveries[d.id := d];
    }
  }
}
