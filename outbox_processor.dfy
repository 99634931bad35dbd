/**
 * The outbox poller: takes the NEW events below the retry cap, runs the
 * handlers that accept each event's type, and marks the event SENT, or counts
 * a failure and dead-letters it at the cap.
 *
 * Whether a handler throws is an input: `throws(eventId, i)` says whether the
 * i-th handler throws when invoked for that event. A throwing handler does
 * its work no further than the throw.
 */
module OutboxProcessing {
  import opened Common
  import opened Domain
  import opened Outbox
  import opened WebhookDeliveries
  import opened WebhookEvents

  /** Failures after which an event is dead-lettered. */
  const OutboxMaxRetries: int := 3

  /** A registered handler: the webhook handler, or another one accepting a fixed set of types. */
  datatype EventHandler = WebhookHandler | OtherHandler(eventTypes: set<string>)

  predicate Accepts(h: EventHandler, eventType: string) {
    match h
    case WebhookHandler => CanHandle(eventType)
    case OtherHandler(eventTypes) => eventType in eventTypes
  }

  /** Handler `i` is invoked for `e` and throws. */
  predicate ThrowsAt(handlers: seq<EventHandler>, e: OutboxEvent, throws: (Uuid, nat) -> bool, i: nat)
    requires i < |handlers|
  {
    Accepts(handlers[i], e.eventType) && throws(e.id, i)
  }

  /** Some handler among the first `n` is invoked for `e` and throws. */
  predicate ThrowsBefore(handlers: seq<EventHandler>, e: OutboxEvent, throws: (Uuid, nat) -> bool, n: nat)
    requires n <= |handlers|
  {
    n > 0 && (ThrowsBefore(handlers, e, throws, n - 1) || ThrowsAt(handlers, e, throws, n - 1))
  }

  /** Processing `e` fails: one of its handlers throws. */
  predicate EventFails(handlers: seq<EventHandler>, e: OutboxEvent, throws: (Uuid, nat) -> bool) {
    ThrowsBefore(handlers, e, throws, |handlers|)
  }

  /** `ThrowsBefore` means some invoked handler below `n` throws. */
  lemma {:induction false} ThrowsBeforeMeans(handlers: seq<EventHandler>, e: OutboxEvent, throws: (Uuid, nat) -> bool, n: nat)
    requires n <= |handlers|
    ensures ThrowsBefore(handlers, e, throws, n) <==> exists i | 0 <= i < n :: ThrowsAt(handlers, e, throws, i)
  {
    if n > 0 {
      ThrowsBeforeMeans(handlers, e, throws, n - 1);
      if ThrowsAt(handlers, e, throws, n - 1) {
        assert exists i | 0 <= i < n :: ThrowsAt(handlers, e, throws, i);
      }
    }
  }

  /** Handler `i` is reached and completes for `e`: it accepts the type, nothing before it threw, and it does not throw. */
  predicate Completes(handlers: seq<EventHandler>, e: OutboxEvent, throws: (Uuid, nat) -> bool, i: nat)
    requires i < |handlers|
  {
    Accepts(handlers[i], e.eventType) && !ThrowsBefore(handlers, e, throws, i) && !throws(e.id, i)
  }

  /** A throwing handler stops the rest: no handler after it completes. */
  lemma {:induction false} ThrowStopsLaterHandlers(
    handlers: seq<EventHandler>, e: OutboxEvent, throws: (Uuid, nat) -> bool, i: nat, j: nat)
    requires i < j < |handlers| && ThrowsAt(handlers, e, throws, i)
    ensures !Completes(handlers, e, throws, j)
  {
    ThrowsBeforeMeans(handlers, e, throws, j);
  }

  /**
   * `processEvent`'s bookkeeping: success marks the event SENT at `now`;
   * a failure counts one more retry and dead-letters the event at the cap,
   * leaving its status as it was below the cap.
   */
  function ProcessOutcome(e: OutboxEvent, failed: bool, now: Instant): (r: OutboxEvent)
    ensures !failed ==> r.status == Sent && r.processedAt == Some(now) && r.retryCount == e.retryCount
    ensures failed ==> r.retryCount == e.retryCount + 1 && r.processedAt == e.processedAt
    ensures failed ==> (r.status == OutboxFailed <==> r.retryCount >= OutboxMaxRetries || e.status == OutboxFailed)
    ensures failed && r.retryCount < OutboxMaxRetries ==> r.status == e.status
    ensures r.id == e.id && r.eventType == e.eventType && r.payload == e.payload && r.createdAt == e.createdAt
    ensures r.aggregateId == e.aggregateId && r.aggregateType == e.aggregateType
  {
    if !failed then e.(status := Sent, processedAt := Some(now))
    else
      var counted := e.(retryCount := e.retryCount + 1);
      if counted.retryCount >= OutboxMaxRetries then counted.(status := OutboxFailed) else counted
  }

  /** `k` failed processing rounds in a row. */
  function FailRounds(e: OutboxEvent, k: nat, now: Instant): (r: OutboxEvent)
    decreases k
  {
    if k == 0 then e else ProcessOutcome(FailRounds(e, k - 1, now), true, now)
  }

  /**
   * A new event whose handlers keep throwing stays NEW (and is polled again)
   * for two failures and is dead-lettered on the third; after that it is
   * never polled.
   */
  lemma {:induction false} DeadLetterOnThirdFailure(e: OutboxEvent, k: nat, now: Instant, events: seq<OutboxEvent>)
    requires e.status == New && e.retryCount == 0
    ensures FailRounds(e, k, now).retryCount == k
    ensures k < OutboxMaxRetries ==> FailRounds(e, k, now).status == New
    ensures k >= OutboxMaxRetries ==> FailRounds(e, k, now).status == OutboxFailed
    ensures k >= OutboxMaxRetries ==> FailRounds(e, k, now) !in FindPendingEvents(events, New, OutboxMaxRetries)
  {
    if k > 0 {
      DeadLetterOnThirdFailure(e, k - 1, now, events);
    }
    if k >= OutboxMaxRetries {
      DeadLetteredIsNotPolled(FailRounds(e, k, now), events);
    }
  }

  lemma DeadLetteredIsNotPolled(e: OutboxEvent, events: seq<OutboxEvent>)
    requires e.status == OutboxFailed
    ensures e !in FindPendingEvents(events, New, OutboxMaxRetries)
  {
  }

  /** Only NEW events below the cap are polled: SENT and dead-lettered events are final. */
  lemma PolledEventsAreNewBelowCap(events: seq<OutboxEvent>)
    ensures forall e | e in FindPendingEvents(events, New, OutboxMaxRetries) ::
      e.status == New && e.retryCount < OutboxMaxRetries
  {
  }

  /** The webhook handler appears at most once among the handlers. */
  predicate AtMostOneWebhookHandler(handlers: seq<EventHandler>) {
    forall i, j | 0 <= i < j < |handlers| :: !(handlers[i].WebhookHandler? && handlers[j].WebhookHandler?)
  }

  /** Among the first `n` handlers, the webhook handler completes for `e`. */
  predicate WebhookCompletesBefore(handlers: seq<EventHandler>, e: OutboxEvent, throws: (Uuid, nat) -> bool, n: nat)
    requires n <= |handlers|
  {
    exists i | 0 <= i < n :: handlers[i].WebhookHandler? && Completes(handlers, e, throws, i)
  }

  /** The deliveries the webhook handler adds for `e` when it completes. */
  function WebhookOutput(configs: seq<MerchantConfig>, e: OutboxEvent, id: Uuid, now: Instant, completes: bool)
    : seq<WebhookDelivery>
  {
    var made := DeliveryFor(e, configs, id, now);
    if completes && made.Some? then [made.value] else []
  }

  class OutboxProcessor {
    const outbox: OutboxEventRepository
    const handlers: seq<EventHandler>
    const webhook: WebhookEventHandler

    constructor(outbox: OutboxEventRepository, handlers: seq<EventHandler>, webhook: WebhookEventHandler)
      requires AtMostOneWebhookHandler(handlers)
      ensures this.outbox == outbox && this.handlers == handlers && this.webhook == webhook
      ensures Valid() <==> outbox.Valid() && webhook.repository.Valid()
    {
      this.outbox := outbox;
      this.handlers := handlers;
      this.webhook := webhook;
    }

    predicate Valid()
      reads this, outbox, webhook, webhook.repository
    {
      outbox.Valid() && webhook.repository.Valid() && AtMostOneWebhookHandler(handlers)
    }

    /**
     * `processEvent(event)`: runs the accepting handlers in order until one
     * throws, then saves the event as `ProcessOutcome` says.
     */
    method ProcessEvent(e: OutboxEvent, throws: (Uuid, nat) -> bool, now: Instant)
      requires Valid() && e.id < |outbox.events|
      modifies outbox, webhook.repository
      ensures Valid()
      ensures outbox.events == old(outbox.events)[e.id := ProcessOutcome(e, EventFails(handlers, e, throws), now)]
      ensures webhook.repository.deliveries ==
        old(webhook.repository.deliveries) +
        WebhookOutput(webhook.configs, e, |old(webhook.repository.deliveries)|, now,
                      WebhookCompletesBefore(handlers, e, throws, |handlers|))
    {
      var start := webhook.repository.deliveries;
      var failed := false;
      var i := 0;
      while i < |handlers| && !failed
        invariant 0 <= i <= |handlers|
        invariant webhook.repository.Valid()
        invariant failed == ThrowsBefore(handlers, e, throws, i)
        invariant webhook.repository.deliveries ==
          start + WebhookOutput(webhook.configs, e, |start|, now, WebhookCompletesBefore(handlers, e, throws, i))
        invariant outbox.events == old(outbox.events)
      {
        if Accepts(handlers[i], e.eventType) {
          if throws(e.id, i) {
            failed := true;
          } else if handlers[i].WebhookHandler? {
            assert !WebhookCompletesBefore(handlers, e, throws, i);
            webhook.Handle(e, now);
          }
        }
        assert WebhookCompletesBefore(handlers, e, throws, i + 1) <==>
          WebhookCompletesBefore(handlers, e, throws, i) || (handlers[i].WebhookHandler? && Completes(handlers, e, throws, i));
        i := i + 1;
      }
      if failed {
        FailureIsFinal(e, throws, i);
      }
      outbox.Update(ProcessOutcome(e, failed, now));
    }

    /** Once a handler has thrown, the outcome and the webhook's part no longer change. */
    lemma {:induction false} FailureIsFinal(e: OutboxEvent, throws: (Uuid, nat) -> bool, n: nat)
      requires n <= |handlers| && ThrowsBefore(handlers, e, throws, n)
      ensures EventFails(handlers, e, throws)
      ensures WebhookCompletesBefore(handlers, e, throws, |handlers|) == WebhookCompletesBefore(handlers, e, throws, n)
      decreases |handlers| - n
    {
      if n < |handlers| {
        assert ThrowsBefore(handlers, e, throws, n + 1);
        assert !Completes(handlers, e, throws, n);
        FailureIsFinal(e, throws, n + 1);
      }
    }

    /** `rows` is `start` with exactly the events in `done` processed. */
    predicate ProcessedExactly(start: seq<OutboxEvent>, done: seq<OutboxEvent>, rows: seq<OutboxEvent>,
                               throws: (Uuid, nat) -> bool, now: Instant)
    {
      && |rows| == |start|
      && forall k | 0 <= k < |start| ::
           rows[k] == if start[k] in done then ProcessOutcome(start[k], EventFails(handlers, start[k], throws), now)
                      else start[k]
    }

    /** Every delivery past `start` is a new, pending delivery for one of `batch`'s events. */
    predicate OnlyNewDeliveries(start: seq<WebhookDelivery>, batch: seq<OutboxEvent>, rows: seq<WebhookDelivery>) {
      && |start| <= |rows| && rows[..|start|] == start
      && forall k | |start| <= k < |rows| ::
           rows[k].status == WebhookPending && rows[k].retryCount == 0 &&
           exists e | e in batch :: rows[k].eventId == e.id
    }

    lemma {:induction false} ProcessOneMore(start: seq<OutboxEvent>, done: seq<OutboxEvent>, rows: seq<OutboxEvent>,
      e: OutboxEvent, throws: (Uuid, nat) -> bool, now: Instant)
      requires forall k | 0 <= k < |start| :: start[k].id == k
      requires ProcessedExactly(start, done, rows, throws, now)
      requires e in start
      ensures e.id < |rows|
      ensures ProcessedExactly(start, done + [e],
        rows[e.id := ProcessOutcome(e, EventFails(handlers, e, throws), now)], throws, now)
    {
      var k0 :| 0 <= k0 < |start| && start[k0] == e;
      assert e.id == k0;
    }

    /**
     * `processOutbox()`: each polled event is processed once, in the order
     * polled; every other event is left as it was. The deliveries already
     * stored are kept, and each added one is a pending delivery for a
     * polled event.
     */
    method ProcessOutbox(throws: (Uuid, nat) -> bool, now: Instant)
      requires Valid()
      modifies outbox, webhook.repository
      ensures Valid()
      ensures ProcessedExactly(old(outbox.events), FindPendingEvents(old(outbox.events), New, OutboxMaxRetries),
                               outbox.events, throws, now)
      ensures OnlyNewDeliveries(old(webhook.repository.deliveries),
                                FindPendingEvents(old(outbox.events), New, OutboxMaxRetries),
                                webhook.repository.deliveries)
    {
      var start := outbox.events;
      var before := webhook.repository.deliveries;
      var batch := FindPendingEvents(start, New, OutboxMaxRetries);
      if batch == [] {
        return;
      }
      var i := 0;
      while i < |batch|
        invariant 0 <= i <= |batch|
        invariant Valid()
        invariant ProcessedExactly(start, batch[..i], outbox.events, throws, now)
        invariant OnlyNewDeliveries(before, batch, webhook.repository.deliveries)
      {
        var e := batch[i];
        TakeOneMore(batch, i);
        assert e in start;
        ProcessOneMore(start, batch[..i], outbox.events, e, throws, now);
        var rows := webhook.repository.deliveries;
        ProcessEvent(e, throws, now);
        NewDeliveriesStayNew(before, batch, rows, e, now, throws);
        i := i + 1;
      }
      assert batch[..i] == batch;
    }

    lemma {:induction false} NewDeliveriesStayNew(before: seq<WebhookDelivery>, batch: seq<OutboxEvent>,
      rows: seq<WebhookDelivery>, e: OutboxEvent, now: Instant, throws: (Uuid, nat) -> bool)
      requires OnlyNewDeliveries(before, batch, rows) && e in batch
      ensures OnlyNewDeliveries(before, batch,
        rows + WebhookOutput(webhook.configs, e, |rows|, now, WebhookCompletesBefore(handlers, e, throws, |handlers|)))
    {
      var added := WebhookOutput(webhook.configs, e, |rows|, now, WebhookCompletesBefore(handlers, e, throws, |handlers|));
      var all := rows + added;
      assert all[..|before|] == rows[..|before|];
      forall k | |before| <= k < |all|
        ensures all[k].status == WebhookPending && all[k].retryCount == 0 && exists e' | e' in batch :: all[k].eventId == e'.id
      {
        if k >= |rows| {
          assert all[k] == added[0];
          assert all[k].eventId == e.id;
        }
      }
    }
  }
}
