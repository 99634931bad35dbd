/**
 * The transactional outbox: events recorded next to the payment changes that
 * caused them, and the queries the outbox poller uses.
 */
module Outbox {
  import opened Common
  import opened Domain
  import opened Sorting

  datatype OutboxStatus = New | Sent | OutboxFailed

  /**
   * An event payload. Payment events carry the payment's API view; any other
   * text is `Malformed` as far as its readers are concerned.
   */
  datatype Payload = PaymentSnapshot(response: PaymentResponse) | Malformed

  datatype OutboxEvent = OutboxEvent(
    id: Uuid,
    aggregateType: string,
    aggregateId: Uuid,
    eventType: string,
    payload: Payload,
    status: OutboxStatus,
    retryCount: int,
    createdAt: Instant,
    processedAt: Option<Instant>)

  function CreatedAtKey(e: OutboxEvent): int {
    e.createdAt
  }

  /**
   * `findPendingEvents(status, maxRetries)`: the events in `status` with fewer
   * than `maxRetries` retries, oldest first.
   */
  function FindPendingEvents(events: seq<OutboxEvent>, status: OutboxStatus, maxRetries: int): (r: seq<OutboxEvent>)
    ensures forall e :: e in r <==> e in events && e.status == status && e.retryCount < maxRetries
    ensures forall i, j | 0 <= i < j < |r| :: r[i].createdAt <= r[j].createdAt
    ensures multiset(r) <= multiset(events)
  {
    var pending := Filter(events, (e: OutboxEvent) => e.status == status && e.retryCount < maxRetries);
    SortByMembers(pending, CreatedAtKey);
    SortBy(pending, CreatedAtKey)
  }

  /** `findByStatusOrderByCreatedAtAsc(status)`: every event in `status`, oldest first. */
  function FindByStatus(events: seq<OutboxEvent>, status: OutboxStatus): (r: seq<OutboxEvent>)
    ensures forall e :: e in r <==> e in events && e.status == status
    ensures forall i, j | 0 <= i < j < |r| :: r[i].createdAt <= r[j].createdAt
    ensures multiset(r) <= multiset(events)
  {
    var matching := Filter(events, (e: OutboxEvent) => e.status == status);
    SortByMembers(matching, CreatedAtKey);
    SortBy(matching, CreatedAtKey)
  }

  /** Stored events; an event's id is its position. */
  class OutboxEventRepository {
    var events: seq<OutboxEvent>

    constructor()
      ensures events == []
    {
      events := [];
    }

    predicate Valid()
      reads this
    {
      forall i | 0 <= i < |events| :: events[i].id == i
    }

    /** Inserts a new event under the next id. */
    method Add(e: OutboxEvent)
      requires Valid() && e.id == |events|
      modifies this
      ensures Valid()
      ensures events == old(events) + [e]
    {
      events := events + [e];
    }

    /** Saves an existing event over its stored row. */
    method Update(e: OutboxEvent)
      requires Valid() && e.id < |events|
      modifies this
      ensures Valid()
      ensures events == old(events)[e.id := e]
    {
      events := events[e.id := e];
    }
  }

  /** In a store whose ids are positions, a stored event sits at its id. */
  lemma StoredEventSitsAtItsId(events: seq<OutboxEvent>, e: OutboxEvent)
    requires forall i | 0 <= i < |events| :: events[i].id == i
    requires e in events
    ensures e.id < |events| && events[e.id] == e
  {
  }
}
