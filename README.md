# Payment gateway core, modelled in Dafny

This project models the core of a small payment gateway. The gateway puts one
API in front of several card-payment providers.

A merchant creates a payment. It then authorizes, captures and refunds that
payment through a provider that a routing engine chooses. Every mutating call
is guarded by an idempotency key. Every state change writes an outbox event,
and an outbox processor turns those events into webhook deliveries. A
dispatcher signs the deliveries, sends them, and retries them with backoff. A
mock provider has switchable modes and stands in for real providers. A demo
card flow adds a 3-D Secure (3DS) one-time-password challenge and commission
arithmetic. Around these sit the request logger, the metrics summary and the
REST error table.

## Conventions

| Source concept | Model |
|---|---|
| Money | `int` minor units (cents) |
| Commission rates | hundredths of a percent (1.99 % is `199`) |
| Times | `int` seconds (`Instant`), passed as `now` |
| A random UUID | the row's position in the repository that owns it (`Uuid = nat`) |
| Repositories | classes holding a `seq` of rows, with `Valid()` meaning "every row sits at its id" |
| Queries | filters and sorts over those sequences |
| Services | classes holding their repositories by reference |
| Provider calls, HTTP exchanges, the HMAC, the SHA-256 hash and JSON serialisation | function-valued parameters |

### Modules

| Module | File | Models |
|---|---|---|
| `Domain` | `domain.dfy` | Entities, statuses, request bodies and the exception kinds (`Fault`) |
| `Providers`, `MockProvider` | `providers.dfy`, `mock_provider.dfy` | The provider port, the `ProviderResult` factories, the mock adapter's mode tables |
| `BinLookup`, `RoutingRules`, `Routing` | `bin_lookup.dfy`, `routing_rules.dfy`, `routing.dfy` | BIN lookup, the rule query, provider selection |
| `Idempotency` | `idempotency.dfy` | The key → (request hash, response) store |
| `Repositories` | `repositories.dfy` | Payments, attempts and the transaction ledger |
| `PaymentFlow` | `payment_flow.dfy` | The orchestrator's steps as pure functions over a snapshot of all tables (`Tables`) |
| `PaymentFlowProperties` | `payment_flow_properties.dfy` | Lemmas about those steps |
| `Orchestration` | `orchestrator.dfy` | The orchestrator class, whose methods are proved equal to the step functions |
| `Outbox`, `OutboxProcessing`, `WebhookEvents`, `WebhookDeliveries`, `WebhookDispatch` | `outbox.dfy`, `outbox_processor.dfy`, `webhook_events.dfy`, `webhook_delivery.dfy`, `webhook_dispatcher.dfy` | Reliable delivery |
| `ThreeDs` | `threeds.dfy` | The 3DS session entity and service |
| `Demo` | `demo.dfy` | The demo card flow |
| `Metrics` | `metrics.dfy` | Integer metric counts |
| `ApiLog` | `api_log.dfy` | The request-log filter and store |
| `ExceptionHandling` | `exception_handler.dfy` | The REST error table |

### Where the code is followed over the documented design

The documented webhook backoff is 0 s / 30 s / 2 min / 10 min / 1 h. The code's
first failure already counts retry 1, so the delays used are
30 s / 120 s / 600 s / 3600 s. The fifth failure exhausts the delivery. The
model follows the code (`WebhookDispatch.RetryDelays`).

## Model

| member | source | states |
|---|---|---|
| Domain.ToResponse | src/main/java/org/taha/paymentgateway/orchestrator/PaymentOrchestrator.java:437-451 | The API view keeps the payment's id, merchant and status. |
| Domain.FindMerchantConfig | src/main/java/org/taha/paymentgateway/persistence/repository/MerchantConfigRepository.java:11 | A found configuration is stored under that merchant. No result means no configuration names the merchant. |
| Providers.FactoriesWellFormed | src/main/java/org/taha/paymentgateway/provider/adapter/PaymentProviderAdapter.java:75-89 | The four factories give SUCCESS, FAILURE, TIMEOUT (code "TIMEOUT") and REQUIRES_3DS (with its URL). In each result the 3DS flag, URL, reference and error code are present exactly for their status. |
| Providers.LookupAdapter | src/main/java/org/taha/paymentgateway/routing/ProviderRegistry.java:20-26 | A registry lookup returns an adapter of that name, or nothing exactly when no adapter has it. |
| MockProvider.AuthorizeOutcome | src/main/java/org/taha/paymentgateway/provider/mock/MockPaymentProviderAdapter.java:56-71 | SUCCESS (or RANDOM on a winning coin) gives success "MOCK-AUTH-…"; FAIL gives MOCK_DECLINED; RANDOM on a losing coin gives MOCK_RANDOM_FAIL; TIMEOUT gives a timeout; REQUIRES_3DS gives a 3DS result. Each mode is an iff, and every result is well formed. |
| MockProvider.FollowUpOutcome | src/main/java/org/taha/paymentgateway/provider/mock/MockPaymentProviderAdapter.java:73-101 | Capture and refund succeed with a "MOCK-CAP-…" or "MOCK-REF-…" reference exactly when the mode is neither FAIL nor TIMEOUT. FAIL gives MOCK_CAPTURE_FAILED or MOCK_REFUND_FAILED, and TIMEOUT gives a timeout. |
| MockProvider.HealthIn | src/main/java/org/taha/paymentgateway/provider/mock/MockPaymentProviderAdapter.java:104-110 | UNHEALTHY iff TIMEOUT, DEGRADED iff FAIL, HEALTHY iff any other mode. |
| MockProvider.MockPaymentProviderAdapter.constructor | src/main/java/org/taha/paymentgateway/provider/mock/MockPaymentProviderAdapter.java:33 | The mode starts as SUCCESS. |
| MockProvider.MockPaymentProviderAdapter.ProviderName | src/main/java/org/taha/paymentgateway/provider/mock/MockPaymentProviderAdapter.java:39-41 | The name is always MOCK_PROVIDER. |
| MockProvider.MockPaymentProviderAdapter.SetMode | src/main/java/org/taha/paymentgateway/provider/mock/MockPaymentProviderAdapter.java:46-53 | The mode read back afterwards is the one just set. |
| MockProvider.MockPaymentProviderAdapter.Authorize | src/main/java/org/taha/paymentgateway/provider/mock/MockPaymentProviderAdapter.java:56-71 | The answer is the authorize table entry for the current mode. |
| MockProvider.MockPaymentProviderAdapter.Capture | src/main/java/org/taha/paymentgateway/provider/mock/MockPaymentProviderAdapter.java:74-86 | The answer is the capture table entry for the current mode. |
| MockProvider.MockPaymentProviderAdapter.Refund | src/main/java/org/taha/paymentgateway/provider/mock/MockPaymentProviderAdapter.java:89-101 | The answer is the refund table entry for the current mode. |
| MockProvider.MockPaymentProviderAdapter.HealthCheck | src/main/java/org/taha/paymentgateway/provider/mock/MockPaymentProviderAdapter.java:104-110 | The answer is the health table entry for the current mode. |
| BinLookup.FirstWithPrefix | src/main/java/org/taha/paymentgateway/routing/BinLookupService.java:38-48 | Gives the first row with that prefix, or nothing exactly when no row has it. |
| BinLookup.Lookup | src/main/java/org/taha/paymentgateway/routing/BinLookupService.java:29-53 | A null BIN, a BIN shorter than 6, or a failing database gives nothing. Otherwise the result is a stored row keyed by the first six characters, and nothing is returned exactly when no row has that key. |
| BinLookup.LookupUsesSixDigits | src/main/java/org/taha/paymentgateway/routing/BinLookupService.java:35 | Characters after the sixth never change the lookup. |
| RoutingRules.FindMatchingRules | src/main/java/org/taha/paymentgateway/persistence/repository/RoutingRuleRepository.java:12-20 | Exactly the stored rules that are active and whose merchant, currency and BIN-prefix scopes match (null is a wildcard) are returned, each at most as often as stored, in non-increasing priority. |
| RoutingRules.FindActiveRulesForMerchant | src/main/java/org/taha/paymentgateway/persistence/repository/RoutingRuleRepository.java:22 | Exactly the active rules of that merchant, by descending priority. |
| Routing.TryProvider | src/main/java/org/taha/paymentgateway/routing/RoutingEngine.java:144-168 | A provider is usable iff it is registered and healthy (HEALTHY or DEGRADED; a throwing check counts as unhealthy). |
| Routing.FirstUsableRule | src/main/java/org/taha/paymentgateway/routing/RoutingEngine.java:70-90 | The index of the first rule whose provider is usable. Every earlier rule's provider is unusable, and there is no such rule exactly when none is usable. |
| Routing.FirstHealthy | src/main/java/org/taha/paymentgateway/routing/RoutingEngine.java:93-106 | The first healthy adapter in registry order. |
| Routing.BuildReason | src/main/java/org/taha/paymentgateway/routing/RoutingEngine.java:123-138 | ON-US iff the rule has a BIN prefix and BIN information exists; otherwise merchant agreement iff the rule names a merchant; otherwise currency-based iff it names a currency; otherwise default. |
| Routing.SelectProvider | src/main/java/org/taha/paymentgateway/routing/RoutingEngine.java:43-121 | Fails (no providers available) iff the registry is empty. Otherwise it returns a registered adapter under its own name and carries the BIN lookup unchanged. The chosen adapter is healthy whenever any registered adapter is. |
| Routing.RuleDecidesProvider | src/main/java/org/taha/paymentgateway/routing/RoutingEngine.java:61-90 | When a rule decides, the result has that rule's provider, commission and reason. No other matching rule with a usable provider has a higher priority. |
| Routing.FallbackToFirstHealthy | src/main/java/org/taha/paymentgateway/routing/RoutingEngine.java:93-106 | Without a usable rule, the first healthy adapter is chosen at 1.99 % with the "no rule matched" reason. |
| Routing.ForcedWhenAllUnhealthy | src/main/java/org/taha/paymentgateway/routing/RoutingEngine.java:109-120 | With every adapter unhealthy, the first registered one is forced at 1.99 %. |
| Routing.UnusableRuleIsSkipped | src/main/java/org/taha/paymentgateway/routing/RoutingEngine.java:70-90 | A matching rule with an unusable provider is passed over for a later usable one, whatever the priorities. |
| Routing.UnhealthyHigherPriorityIsSkipped | src/main/java/org/taha/paymentgateway/routing/RoutingEngine.java:144-158 | An unhealthy PROVIDER_A on a priority-2 rule is passed over; the priority-1 rule's PROVIDER_B is chosen at 1.75 % with the merchant-agreement reason. |
| Routing.UnhealthyMockGivesWayToFallback | src/test/java/org/taha/paymentgateway/routing/RoutingEngineTest.java:81-103 | Unscoped rules for an unhealthy MOCK_PROVIDER (priority 1, 1.00 %) and a healthy FALLBACK_PROVIDER (priority 2, 1.75 %) select FALLBACK_PROVIDER at 1.75 %, with no BIN information. |
| Routing.MaskBin | src/main/java/org/taha/paymentgateway/routing/RoutingEngine.java:170-175 | Null or fewer than 4 characters gives "****". Otherwise the first four characters are kept and "**" is appended. |
| Idempotency.FindRecord | src/main/java/org/taha/paymentgateway/idempotency/IdempotencyService.java:21-23 | A found record is stored under exactly that key. Nothing is found iff no record has the key. |
| Idempotency.FindRecordIsTheStoredOne | src/main/java/org/taha/paymentgateway/idempotency/IdempotencyService.java:21-23 | With unique keys, looking up a stored record's key gives that record. |
| Idempotency.FindAfterAppend | src/main/java/org/taha/paymentgateway/idempotency/IdempotencyService.java:34-44 | Saving under a fresh key keeps keys unique. The new key finds the new record and every other key finds what it found before. |
| Idempotency.FindOtherKeyAfterAppend | src/main/java/org/taha/paymentgateway/idempotency/IdempotencyService.java:34-44 | A record saved under another key does not change a lookup. |
| Idempotency.IdempotencyService.constructor | src/main/java/org/taha/paymentgateway/idempotency/IdempotencyService.java:17-19 | The store starts empty. |
| Idempotency.IdempotencyService.Hash | src/main/java/org/taha/paymentgateway/idempotency/IdempotencyService.java:25-32 | The digest is 64 lower-case hex characters. It is a function of its input, so equal inputs hash equally. |
| Idempotency.IdempotencyService.Save | src/main/java/org/taha/paymentgateway/idempotency/IdempotencyService.java:34-44 | A new key is stored with the hash and response exactly as given, and that record is returned. A key already present fails with the unique column's data-integrity violation and stores nothing. |
| Repositories.FindAttemptsNewestFirst | src/main/java/org/taha/paymentgateway/persistence/repository/PaymentAttemptRepository.java:11 | Exactly the payment's attempts, newest first. |
| Repositories.FindTransactionsNewestFirst | src/main/java/org/taha/paymentgateway/persistence/repository/TransactionRepository.java:11 | Exactly the payment's ledger rows, as a permutation of them, newest first. |
| Outbox.FindPendingEvents | src/main/java/org/taha/paymentgateway/persistence/repository/OutboxEventRepository.java:15-16 | Exactly the events with that status and a retry count below the cap, oldest first, none invented. |
| Outbox.FindByStatus | src/main/java/org/taha/paymentgateway/persistence/repository/OutboxEventRepository.java:13 | Exactly the events with that status, oldest first. |
| OutboxProcessing.ThrowsBeforeMeans | src/main/java/org/taha/paymentgateway/event/OutboxProcessor.java:57-61 | "Some handler threw before position n" holds iff one of the first n handlers accepted the event type and threw. |
| OutboxProcessing.ThrowStopsLaterHandlers | src/main/java/org/taha/paymentgateway/event/OutboxProcessor.java:52-61 | After a handler throws, no later handler completes for that event. |
| OutboxProcessing.ProcessOutcome | src/main/java/org/taha/paymentgateway/event/OutboxProcessor.java:63-81 | Without a throw the event is SENT, with processedAt set and the retry count kept. A throw adds exactly one retry, and the status becomes FAILED once the count reaches 3, otherwise it stays. The identity fields never change. |
| OutboxProcessing.DeadLetterOnThirdFailure | src/main/java/org/taha/paymentgateway/event/OutboxProcessor.java:26 | A NEW event failing k times has k retries. It stays NEW below 3, and from 3 on it is FAILED and no longer polled. |
| OutboxProcessing.DeadLetteredIsNotPolled | src/main/java/org/taha/paymentgateway/event/OutboxProcessor.java:36-37 | A FAILED event is never polled again. |
| OutboxProcessing.PolledEventsAreNewBelowCap | src/main/java/org/taha/paymentgateway/event/OutboxProcessor.java:36-37 | Every polled event is NEW with fewer than 3 retries. |
| OutboxProcessing.OutboxProcessor.ProcessEvent | src/main/java/org/taha/paymentgateway/event/OutboxProcessor.java:51-82 | The event's row becomes its processed outcome and every other row is kept. A delivery is added only when the webhook handler ran before any throw. |
| OutboxProcessing.OutboxProcessor.FailureIsFinal | src/main/java/org/taha/paymentgateway/event/OutboxProcessor.java:52-61 | Once a handler has thrown, the event fails, and no later handler's output is added. |
| OutboxProcessing.OutboxProcessor.ProcessOneMore | src/main/java/org/taha/paymentgateway/event/OutboxProcessor.java:45-47 | Processing one more event of the batch keeps "each processed row is its outcome, the rest unchanged". |
| OutboxProcessing.OutboxProcessor.ProcessOutbox | src/main/java/org/taha/paymentgateway/event/OutboxProcessor.java:35-47 | Every polled event (NEW, below the cap, oldest first) is processed once and no other event changes. Only PENDING deliveries with no retries are added, each for a processed event. |
| OutboxProcessing.OutboxProcessor.NewDeliveriesStayNew | src/main/java/org/taha/paymentgateway/event/WebhookEventHandler.java:71-81 | Appending one event's webhook output keeps every added delivery PENDING and tied to a batch event. |
| WebhookEvents.ExtractMerchantId | src/main/java/org/taha/paymentgateway/event/WebhookEventHandler.java:85-94 | A merchant is found iff the payload parses as a payment snapshot. |
| WebhookEvents.BuildWebhookPayload | src/main/java/org/taha/paymentgateway/event/WebhookEventHandler.java:96-109 | The payload carries the event id, type, data and creation time. |
| WebhookEvents.DeliveryFor | src/main/java/org/taha/paymentgateway/event/WebhookEventHandler.java:47-83 | A delivery is made iff the payload names a merchant whose configuration has a webhook URL. It is then PENDING with no retries, no response and no retry time, aimed at that URL, and carries that event. |
| WebhookEvents.NewDeliveryIsPolled | src/main/java/org/taha/paymentgateway/persistence/repository/WebhookDeliveryRepository.java:16-17 | A freshly made delivery is picked up by the next dispatcher poll. |
| WebhookEvents.WebhookEventHandler.Handle | src/main/java/org/taha/paymentgateway/event/WebhookEventHandler.java:47-83 | Appends exactly that delivery, or nothing, and raises no error. |
| WebhookDeliveries.FindPendingDeliveries | src/main/java/org/taha/paymentgateway/persistence/repository/WebhookDeliveryRepository.java:16-17 | Exactly the deliveries whose status is listed and whose retry time is unset or not after now, oldest first. |
| WebhookDeliveries.FindByEventId | src/main/java/org/taha/paymentgateway/persistence/repository/WebhookDeliveryRepository.java:14 | Exactly the deliveries of that event. |
| WebhookDispatch.Truncate | src/main/java/org/taha/paymentgateway/webhook/WebhookDispatcher.java:153-158 | Null stays null. A text within the limit is kept as it is; a longer one becomes exactly its first maxLength characters. |
| WebhookDispatch.RetryDelays | src/main/java/org/taha/paymentgateway/webhook/WebhookDispatcher.java:119-126 | The delays after failures 1 to 4 are 30, 120, 600 and 3600 s, positive and increasing. The 0 s entry is never used. |
| WebhookDispatch.HandleFailure | src/main/java/org/taha/paymentgateway/webhook/WebhookDispatcher.java:114-130 | Adds one retry and records the attempt time and the truncated message. EXHAUSTED iff 5 retries are reached, with the retry time untouched; otherwise FAILED with the next retry at now plus the backoff. Identity fields are kept. |
| WebhookDispatch.FailuresExhaustAtFive | src/main/java/org/taha/paymentgateway/webhook/WebhookDispatcher.java:115-123 | From zero retries, k failures give k retries: FAILED below 5, EXHAUSTED from 5. |
| WebhookDispatch.AfterDispatch | src/main/java/org/taha/paymentgateway/webhook/WebhookDispatcher.java:69-112 | For a response or a client exception: DELIVERED iff a 2xx response came back, with its code and the truncated body and no added retry. A non-2xx response or a client exception takes the failure path. A delivery never returns to PENDING. |
| WebhookDispatch.AfterDispatchCatchingAll | src/main/java/org/taha/paymentgateway/webhook/WebhookDispatcher.java:106-111 | Outcome handling with every exception caught: DELIVERED iff a 2xx response, never PENDING, every other outcome adds one retry, and FAILED always has a retry time after now. For a response or a client exception it is exactly the dispatcher's handling. |
| WebhookDispatch.CaughtEscapeIsCounted | src/main/java/org/taha/paymentgateway/webhook/WebhookDispatcher.java:106-130 | With every exception caught, an exception outside the client family adds one retry and leaves the row FAILED and not yet due, or EXHAUSTED. |
| WebhookDispatch.SigningSecret | src/main/java/org/taha/paymentgateway/webhook/WebhookDispatcher.java:134-136 | The merchant's configured secret if one is set, else "default-secret". |
| WebhookDispatch.Sign | src/main/java/org/taha/paymentgateway/webhook/WebhookDispatcher.java:138-150 | An empty key or a failing MAC signs with "". Otherwise the signature is the MAC. |
| WebhookDispatch.RequestAsWritten | src/main/java/org/taha/paymentgateway/webhook/WebhookDispatcher.java:74-82 | The signature covers one clock reading and the timestamp header carries another. |
| WebhookDispatch.TwoClockReadingsBreakVerification | src/main/java/org/taha/paymentgateway/webhook/WebhookDispatcher.java:143-144 | When the two readings give different MACs, the merchant's check rejects the genuine request. |
| WebhookDispatch.ClockTickRejectsRequest | src/main/java/org/taha/paymentgateway/webhook/WebhookDispatcher.java:82 | Concrete case: readings 1000 ms and 1001 ms. |
| WebhookDispatch.SignedRequest | src/main/java/org/taha/paymentgateway/webhook/WebhookDispatcher.java:74-82 | The request with one reading for signature and header. |
| WebhookDispatch.SignedRequestIsOneReading | src/main/java/org/taha/paymentgateway/webhook/WebhookDispatcher.java:74-82 | The corrected request is the dispatcher's request with its two clock readings equal. |
| WebhookDispatch.SignedRequestVerifies | src/main/java/org/taha/paymentgateway/webhook/WebhookDispatcher.java:132-150 | With one reading, the merchant's check accepts every request the MAC can sign. |
| WebhookDispatch.TerminalDeliveriesAreNotPolled | src/main/java/org/taha/paymentgateway/webhook/WebhookDispatcher.java:51-55 | DELIVERED and EXHAUSTED deliveries are never polled. |
| WebhookDispatch.WebhookDispatcher.DispatchWebhook | src/main/java/org/taha/paymentgateway/webhook/WebhookDispatcher.java:69-112 | Sends the request as the dispatcher builds it, the signature over one clock reading and the timestamp header from a second one. After a response or a client exception it saves the delivery's row once, as its dispatched outcome, and keeps the other rows. Any other exception is reported and no row changes. |
| WebhookDispatch.WebhookDispatcher.Dispatched | src/main/java/org/taha/paymentgateway/webhook/WebhookDispatcher.java:69-112 | A dispatched row keeps its id and never loses retries; a delivery whose exchange throws outside the client family keeps its row. |
| WebhookDispatch.WebhookDispatcher.FirstEscape | src/main/java/org/taha/paymentgateway/webhook/WebhookDispatcher.java:63-65 | The position of the first polled delivery whose exchange throws outside the client family: nothing before it throws, and it throws if it is inside the batch. |
| WebhookDispatch.WebhookDispatcher.FirstEscapeIsFirst | src/main/java/org/taha/paymentgateway/webhook/WebhookDispatcher.java:63-65 | Any position with nothing throwing before it and a throw at it, if inside, is that first position. |
| WebhookDispatch.WebhookDispatcher.DispatchOneMore | src/main/java/org/taha/paymentgateway/webhook/WebhookDispatcher.java:63-65 | Dispatching one more delivery of the batch keeps "each dispatched row is its outcome, the rest unchanged". |
| WebhookDispatch.WebhookDispatcher.BatchStep | src/main/java/org/taha/paymentgateway/webhook/WebhookDispatcher.java:63-65 | Dispatching the next polled delivery, when it does not throw, extends the dispatched prefix by exactly that row. |
| WebhookDispatch.WebhookDispatcher.BatchEnds | src/main/java/org/taha/paymentgateway/webhook/WebhookDispatcher.java:63-66 | A dispatched prefix that ends at the batch's end or at a throwing delivery is the whole effect of the poll. |
| WebhookDispatch.WebhookDispatcher.DispatchWebhooks | src/main/java/org/taha/paymentgateway/webhook/WebhookDispatcher.java:50-66 | The due PENDING or FAILED deliveries are dispatched in order, oldest first, each once with its own two clock readings, up to the first delivery whose exchange throws outside the client family. That delivery and all later ones are left as they were, and the failure is reported. Nothing else changes. |
| WebhookDispatch.WebhookDispatcher.EscapedDeliveryStaysDue | src/main/java/org/taha/paymentgateway/webhook/WebhookDispatcher.java:106-111 | A new PENDING delivery whose exchange throws outside the client family is not saved, so every later poll picks it up again. |
| WebhookDispatch.WebhookDispatcher.SchemelessUrlStopsBatch | src/main/java/org/taha/paymentgateway/webhook/WebhookDispatcher.java:63-65 | Concrete case: a first delivery to "merchant.example/hooks" throws "URI is not absolute", so the batch stops before the second delivery. |
| PaymentFlow.DropTrailingEmpty | src/main/java/org/taha/paymentgateway/orchestrator/PaymentOrchestrator.java:457 | The split result is a prefix of the pieces, ends in a non-empty piece, and drops only empty pieces. |
| PaymentFlow.MaskEmail | src/main/java/org/taha/paymentgateway/orchestrator/PaymentOrchestrator.java:453-463 | A null address or one without '@' is kept. A masked address still has its '@'. The only failure is the index error. |
| PaymentFlow.MaskEmailOfAddress | src/main/java/org/taha/paymentgateway/orchestrator/PaymentOrchestrator.java:453-463 | local@domain gives "**@domain" when local has at most 2 characters, else first + "***" + last + "@domain". |
| PaymentFlow.MaskEmailWithoutDomainFails | src/main/java/org/taha/paymentgateway/orchestrator/PaymentOrchestrator.java:457-459 | "local@" fails: the split drops the empty domain, so index 1 is out of bounds. |
| PaymentFlow.Replay | src/main/java/org/taha/paymentgateway/orchestrator/PaymentOrchestrator.java:370-378 | No key or an unknown key gives no replay. Otherwise the stored response if the hashes match, else a conflict on that key. |
| PaymentFlow.PaymentForMerchant | src/main/java/org/taha/paymentgateway/orchestrator/PaymentOrchestrator.java:359-368 | Not found iff the payment is absent or owned by another merchant. Otherwise the stored payment. |
| PaymentFlow.FirstSuccessfulAuthorize | src/main/java/org/taha/paymentgateway/orchestrator/PaymentOrchestrator.java:351-357 | The first successful AUTHORIZE attempt in newest-first order, or none. |
| PaymentFlow.LastAuthorizeProvider | src/main/java/org/taha/paymentgateway/orchestrator/PaymentOrchestrator.java:351-357 | The provider of a successful authorization of the payment, or MOCK_PROVIDER when there is none. |
| PaymentFlow.ResolveProvider | src/main/java/org/taha/paymentgateway/orchestrator/PaymentOrchestrator.java:202-207 | A registered name is used as is. Otherwise some registered adapter is used, and an empty registry fails with no such element. |
| PaymentFlow.Publish | src/main/java/org/taha/paymentgateway/orchestrator/PaymentOrchestrator.java:424-435 | Appends exactly one NEW event with no retries, for the payment, carrying its snapshot. |
| PaymentFlow.Finish | src/main/java/org/taha/paymentgateway/orchestrator/PaymentOrchestrator.java:380-386 | Answers with the payment's response and stores it under the key, keeping keys unique. |
| PaymentFlow.FindFreshAfterAppend | src/main/java/org/taha/paymentgateway/idempotency/IdempotencyService.java:34-44 | A record saved under a fresh key is found under it, and keys stay unique. |
| PaymentFlow.CreatePaymentStep | src/main/java/org/taha/paymentgateway/orchestrator/PaymentOrchestrator.java:61-101 | A replay or any error writes nothing. Otherwise exactly one payment is added, with the upper-cased currency, and exactly one NEW PaymentCreated event. The answer is that payment's view, stored under the key. Attempts and ledger are untouched. |
| PaymentFlow.AuthorizeStep | src/main/java/org/taha/paymentgateway/orchestrator/PaymentOrchestrator.java:105-173 | Replay before ownership, then ownership, then status CREATED. Any error other than a provider error writes nothing. Only this payment changes, along the lifecycle. |
| PaymentFlow.AuthorizeWith | src/main/java/org/taha/paymentgateway/orchestrator/PaymentOrchestrator.java:126-172 | One attempt is appended for that provider. Success gives AUTHORIZED, REQUIRES_3DS keeps CREATED, and otherwise the payment is FAILED with one event and a provider error. |
| PaymentFlow.CaptureStep | src/main/java/org/taha/paymentgateway/orchestrator/PaymentOrchestrator.java:177-246 | Replay, ownership, then status AUTHORIZED. An error leaves payments and the ledger untouched. |
| PaymentFlow.CaptureWith | src/main/java/org/taha/paymentgateway/orchestrator/PaymentOrchestrator.java:209-245 | One attempt is appended. Success gives CAPTURED with one CAPTURE row and one event. Failure changes nothing else. |
| PaymentFlow.RefundedStatus | src/main/java/org/taha/paymentgateway/orchestrator/PaymentOrchestrator.java:306-308 | REFUNDED iff prior refunds plus this one reach the amount, else PARTIALLY_REFUNDED. |
| PaymentFlow.RefundStep | src/main/java/org/taha/paymentgateway/orchestrator/PaymentOrchestrator.java:250-329 | Replay, ownership, then status CAPTURED or PARTIALLY_REFUNDED. An error leaves payments and the ledger untouched. |
| PaymentFlow.RefundWith | src/main/java/org/taha/paymentgateway/orchestrator/PaymentOrchestrator.java:284-328 | One attempt is appended. Success appends one REFUND row and moves the status by the refund total. Failure changes nothing else. |
| PaymentFlowProperties.CreateRetryUnderSameKey | src/main/java/org/taha/paymentgateway/orchestrator/PaymentOrchestrator.java:67-73 | A retried create under a used key writes nothing: it replays on an equal hash and conflicts otherwise. |
| PaymentFlowProperties.AuthorizeRetryUnderSameKey | src/main/java/org/taha/paymentgateway/orchestrator/PaymentOrchestrator.java:110-114 | The same holds for authorize, with no second provider call. |
| PaymentFlowProperties.CaptureRetryUnderSameKey | src/main/java/org/taha/paymentgateway/orchestrator/PaymentOrchestrator.java:182-186 | The same holds for capture. |
| PaymentFlowProperties.RefundRetryUnderSameKey | src/main/java/org/taha/paymentgateway/orchestrator/PaymentOrchestrator.java:255-259 | The same holds for refund, so no money moves twice. |
| PaymentFlowProperties.ForeignPaymentIsNotFound | src/main/java/org/taha/paymentgateway/orchestrator/PaymentOrchestrator.java:359-368 | An absent or foreign payment is not found, with nothing written. |
| PaymentFlowProperties.WrongStatusIsRejected | src/main/java/org/taha/paymentgateway/orchestrator/PaymentOrchestrator.java:121-123 | A wrong status raises the state error before any provider call, with nothing written. |
| PaymentFlowProperties.AuthorizeFollowsProviderAnswer | src/main/java/org/taha/paymentgateway/orchestrator/PaymentOrchestrator.java:146-162 | SUCCESS gives AUTHORIZED with the reference and a PaymentAuthorized event. REQUIRES_3DS leaves payment and outbox unchanged. Otherwise FAILED, a PaymentFailed event and the provider's error. |
| PaymentFlowProperties.CaptureFollowsProviderAnswer | src/main/java/org/taha/paymentgateway/orchestrator/PaymentOrchestrator.java:197-235 | Success gives CAPTURED, one CAPTURE row of the requested (or full) amount and a PaymentCaptured event. Otherwise payment, ledger and outbox are unchanged. |
| PaymentFlowProperties.EmptyRegistryStopsCaptureAndRefund | src/main/java/org/taha/paymentgateway/orchestrator/PaymentOrchestrator.java:202-207 | With no adapter, capture and refund fail at provider resolution and write nothing. |
| PaymentFlowProperties.RefundSumAppend | src/main/java/org/taha/paymentgateway/orchestrator/PaymentOrchestrator.java:417-422 | One appended row adds its amount to the refund total iff it is a refund of that payment. |
| PaymentFlowProperties.RefundSumOfOthers | src/main/java/org/taha/paymentgateway/orchestrator/PaymentOrchestrator.java:417-422 | Other payments' rows and other kinds of row do not count. |
| PaymentFlowProperties.RefundDecidesStatus | src/main/java/org/taha/paymentgateway/orchestrator/PaymentOrchestrator.java:270-311 | A successful refund appends one unclamped REFUND row (full amount by default). The payment is REFUNDED iff the total reaches the amount. |
| PaymentFlowProperties.TwoRefundsReachTheAmount | src/test/java/org/taha/paymentgateway/orchestrator/PaymentOrchestratorTest.java:489-529 | Two partial refunds that sum to the amount leave the payment REFUNDED. |
| PaymentFlowProperties.SoleAuthorizationNamesProvider | src/main/java/org/taha/paymentgateway/orchestrator/PaymentOrchestrator.java:351-357 | With one successful authorization on record, its provider is found. |
| PaymentFlowProperties.UnauthorizedFallsBackToMock | src/main/java/org/taha/paymentgateway/orchestrator/PaymentOrchestrator.java:351-357 | Without one, MOCK_PROVIDER is used when registered, else the first adapter. |
| PaymentFlowProperties.CaptureGoesToAuthorizingProvider | src/main/java/org/taha/paymentgateway/orchestrator/PaymentOrchestrator.java:202-207 | After a first successful authorization, capture goes to the same provider while it is registered. |
| PaymentFlowProperties.CaptureGoesToSoleAuthorizer | src/main/java/org/taha/paymentgateway/orchestrator/PaymentOrchestrator.java:202-207 | Capture goes to the provider of the sole successful authorization while it is registered. |
| PaymentFlowProperties.AuthorizationLeavesSoleSuccess | src/main/java/org/taha/paymentgateway/orchestrator/PaymentOrchestrator.java:146-152 | A successful authorize on a payment with no earlier successful authorization adds one attempt. When it authorizes the payment, that attempt is the payment's only successful authorization and its provider is registered. |
| PaymentFlowProperties.RefundGoesToAuthorizingProvider | src/main/java/org/taha/paymentgateway/orchestrator/PaymentOrchestrator.java:277-282 | Refund goes to the provider of the sole successful authorization. |
| Orchestration.PaymentOrchestrator.PublishEvent | src/main/java/org/taha/paymentgateway/orchestrator/PaymentOrchestrator.java:424-435 | The outbox becomes its old rows plus the one event. |
| Orchestration.PaymentOrchestrator.SaveAttempt | src/main/java/org/taha/paymentgateway/orchestrator/PaymentOrchestrator.java:388-402 | The attempt log gains exactly that attempt. |
| Orchestration.PaymentOrchestrator.SaveTransaction | src/main/java/org/taha/paymentgateway/orchestrator/PaymentOrchestrator.java:404-415 | The ledger gains exactly that row. |
| Orchestration.PaymentOrchestrator.SaveIdempotency | src/main/java/org/taha/paymentgateway/orchestrator/PaymentOrchestrator.java:380-386 | The response is stored under a key (if any) with the request's hash. |
| Orchestration.PaymentOrchestrator.CreatePayment | src/main/java/org/taha/paymentgateway/orchestrator/PaymentOrchestrator.java:61-101 | Result and new stores are those of the create step. |
| Orchestration.PaymentOrchestrator.Authorize | src/main/java/org/taha/paymentgateway/orchestrator/PaymentOrchestrator.java:105-173 | Result and new stores are those of the authorize step. |
| Orchestration.PaymentOrchestrator.AuthorizeWithProvider | src/main/java/org/taha/paymentgateway/orchestrator/PaymentOrchestrator.java:126-172 | Same, for the tail after routing. |
| Orchestration.PaymentOrchestrator.ProviderForFollowUp | src/main/java/org/taha/paymentgateway/orchestrator/PaymentOrchestrator.java:202-207 | The provider resolved from the last authorizing one. |
| Orchestration.PaymentOrchestrator.Capture | src/main/java/org/taha/paymentgateway/orchestrator/PaymentOrchestrator.java:177-246 | Result and new stores are those of the capture step. |
| Orchestration.PaymentOrchestrator.CaptureWithProvider | src/main/java/org/taha/paymentgateway/orchestrator/PaymentOrchestrator.java:209-245 | Same, for the tail after provider resolution. |
| Orchestration.PaymentOrchestrator.TotalRefunded | src/main/java/org/taha/paymentgateway/orchestrator/PaymentOrchestrator.java:417-422 | The loop's total is the refund sum of the ledger. |
| Orchestration.PaymentOrchestrator.Refund | src/main/java/org/taha/paymentgateway/orchestrator/PaymentOrchestrator.java:250-329 | Result and new stores are those of the refund step. |
| Orchestration.PaymentOrchestrator.RefundWithProvider | src/main/java/org/taha/paymentgateway/orchestrator/PaymentOrchestrator.java:284-328 | Same, for the tail after provider resolution. |
| Orchestration.PaymentOrchestrator.GetPayment | src/main/java/org/taha/paymentgateway/orchestrator/PaymentOrchestrator.java:333-336 | Found iff the payment exists and is the merchant's. Otherwise not found. |
| Orchestration.PaymentOrchestrator.GetAttempts | src/main/java/org/taha/paymentgateway/orchestrator/PaymentOrchestrator.java:338-343 | After the ownership check, exactly the payment's attempts, newest first. |
| ThreeDs.ThreeDsSessionEntity.constructor | src/main/java/org/taha/paymentgateway/persistence/entity/ThreeDsSessionEntity.java:28-38 | A new session has OTP "111111", status PENDING and no attempts. |
| ThreeDs.ThreeDsSessionEntity.OnCreate | src/main/java/org/taha/paymentgateway/persistence/entity/ThreeDsSessionEntity.java:49-54 | Fills only unset id, creation time and expiry (now + 5 min). Everything else is kept. |
| ThreeDs.VerifyOutcome | src/main/java/org/taha/paymentgateway/threeds/ThreeDsService.java:75-111 | The checks run expired, then verified, then blocked (3 attempts). Attempts grow by one iff none of those applies. The count never exceeds 3, and an expired session is EXPIRED even if it was verified. |
| ThreeDs.AttemptsStayWithinCap | src/main/java/org/taha/paymentgateway/threeds/ThreeDsService.java:86-97 | Any sequence of tries keeps attempts at most 3. |
| ThreeDs.AttemptsNeverDecrease | src/main/java/org/taha/paymentgateway/threeds/ThreeDsService.java:88-90 | Any sequence of tries never lowers attempts. |
| ThreeDs.ThreeWrongCodesBlock | src/main/java/org/taha/paymentgateway/threeds/ThreeDsService.java:82-111 | Three wrong codes leave 2, 1 and 0 tries, then BLOCKED, even for the right code. |
| ThreeDs.VerificationHoldsUntilExpiry | src/main/java/org/taha/paymentgateway/threeds/ThreeDsService.java:75-86 | A verified session answers ALREADY_VERIFIED until it expires, and EXPIRED after. |
| ThreeDs.ThreeDsSessionRepository.FindByPaymentId | src/main/java/org/taha/paymentgateway/persistence/repository/ThreeDsSessionRepository.java:11 | A found session belongs to that payment. Nothing is found iff none does. |
| ThreeDs.ThreeDsSessionRepository.Insert | src/main/java/org/taha/paymentgateway/persistence/entity/ThreeDsSessionEntity.java:49-54 | Appends the session after its creation callback has filled unset fields. |
| ThreeDs.FirstOfPayment | src/main/java/org/taha/paymentgateway/persistence/repository/ThreeDsSessionRepository.java:11 | The first session of the payment: no earlier session belongs to it. None iff it has none. |
| ThreeDs.ThreeDsService.CreateSession | src/main/java/org/taha/paymentgateway/threeds/ThreeDsService.java:33-62 | Not found iff the payment is absent. An existing session is returned unchanged. Otherwise a PENDING session expiring in 5 min is stored, and the payment is marked as needing 3DS with that session. |
| ThreeDs.ThreeDsService.Verify | src/main/java/org/taha/paymentgateway/threeds/ThreeDsService.java:68-112 | 3DS_SESSION_NOT_FOUND iff there is no session. Otherwise the session moves and answers as the verify outcome says; its id, code, expiry and creation time stay, and every other session is unchanged. |
| ThreeDs.ThreeDsService.IsVerified | src/main/java/org/taha/paymentgateway/threeds/ThreeDsService.java:117-121 | True iff the payment has a session and its first session is VERIFIED; false without a session. |
| Demo.MaskCardNumber | src/main/java/org/taha/paymentgateway/api/controller/DemoController.java:449-452 | Null or fewer than 10 characters are kept. Otherwise first 6 + "******" + last 4. |
| Demo.MaskCardNumberIdempotent | src/main/java/org/taha/paymentgateway/api/controller/DemoController.java:449-452 | Masking twice equals masking once. |
| Demo.MaskHidesMiddleDigits | src/main/java/org/taha/paymentgateway/api/controller/DemoController.java:449-452 | Numbers agreeing on first six and last four mask equally. |
| Demo.StripWhitespace | src/main/java/org/taha/paymentgateway/api/controller/DemoController.java:114 | Removes exactly the whitespace, keeping all else. |
| Demo.StripWhitespaceIdempotent | src/main/java/org/taha/paymentgateway/api/controller/DemoController.java:114 | Stripping twice equals stripping once. |
| Demo.FindByCardNumber | src/main/java/org/taha/paymentgateway/persistence/repository/TestCardRepository.java:11 | A found card has that number. Nothing is found iff no card does, and with unique numbers it is that card. |
| Demo.FindByBinPrefix | src/main/java/org/taha/paymentgateway/persistence/repository/TestCardRepository.java:13 | A null BIN gives none. Otherwise none iff no card has the prefix; two or more cards give the incorrect-result-size error. |
| Demo.RoundHalfUp | src/main/java/org/taha/paymentgateway/api/controller/DemoController.java:181-185 | Rounds ten-thousandths of a cent to the nearest cent, halves away from zero. |
| Demo.Commission | src/main/java/org/taha/paymentgateway/api/controller/DemoController.java:181-185 | amount × rate / 100 %, HALF_UP to cents. |
| Demo.CommissionWithinAmount | src/main/java/org/taha/paymentgateway/api/controller/DemoController.java:181-185 | For a rate up to 100 %, commission and net both lie in [0, amount]. |
| Demo.CommissionMonotone | src/main/java/org/taha/paymentgateway/api/controller/DemoController.java:181-185 | A larger amount never has a smaller commission. |
| Demo.DemoCaptured | src/main/java/org/taha/paymentgateway/api/controller/DemoController.java:177-194 | CAPTURED with the card's rate (1.99 % and the mock provider without a card) and a "DEMO-" reference. Commission plus net equal the amount. Nothing else changes. |
| Demo.CheckCard | src/main/java/org/taha/paymentgateway/api/controller/DemoController.java:103-121 | A short number fails in the log line. Then: not found, INVALID_STATE unless CREATED, INVALID_CARD for an unknown stripped number, INVALID_CVV exactly when the stored card's CVV differs. A stored card with a matching CVV passes. |
| Demo.DemoController.ProcessPayment | src/main/java/org/taha/paymentgateway/api/controller/DemoController.java:98-157 | A rejected card writes nothing. A failing card makes the payment FAILED with one FAILURE attempt. Otherwise a 3DS session exists, BIN and last four are stored, the status stays CREATED, and the answer is REQUIRES_3DS. |
| Demo.DemoController.Verify3ds | src/main/java/org/taha/paymentgateway/api/controller/DemoController.java:162-216 | A failed challenge leaves payments and attempts untouched. A passed one captures the payment directly with the commission and logs one successful attempt. The session keeps its id, code, expiry and creation time, and every other session is unchanged. |
| Demo.DemoController.ListPayments | src/main/java/org/taha/paymentgateway/api/controller/DemoController.java:221-247 | Every payment once, newest first. |
| Metrics.CountStatus | src/main/java/org/taha/paymentgateway/service/MetricsService.java:53-57 | Bounded by the total, and positive iff some payment has that status. |
| Metrics.CountSuccessful | src/main/java/org/taha/paymentgateway/service/MetricsService.java:43-47 | Bounded by the total. |
| Metrics.SuccessfulIsSumOfStatuses | src/main/java/org/taha/paymentgateway/service/MetricsService.java:43-47 | Successful is exactly CAPTURED + REFUNDED + PARTIALLY_REFUNDED. |
| Metrics.SuccessfulAndFailedWithinTotal | src/main/java/org/taha/paymentgateway/service/MetricsService.java:42-50 | Successful + failed ≤ total. |
| Metrics.StatusCountsSumToTotal | src/main/java/org/taha/paymentgateway/service/MetricsService.java:53-57 | The per-status counts sum to the total. |
| Metrics.PaymentsByStatus | src/main/java/org/taha/paymentgateway/service/MetricsService.java:53-57 | One positive entry per status present, equal to its count. |
| Metrics.CountProvider | src/main/java/org/taha/paymentgateway/service/MetricsService.java:103-110 | Positive iff the provider has attempts. |
| Metrics.OutcomesPartitionAttempts | src/main/java/org/taha/paymentgateway/service/MetricsService.java:103-117 | Successes, failures, timeouts and the uncounted statuses sum to the provider's attempts. |
| Metrics.CountedOutcomesWithinTotal | src/main/java/org/taha/paymentgateway/service/MetricsService.java:103-117 | Success + failure + timeout ≤ total attempts. |
| Metrics.Providers | src/main/java/org/taha/paymentgateway/service/MetricsService.java:103-107 | Exactly the providers with attempts. |
| Metrics.CalculateProviderMetrics | src/main/java/org/taha/paymentgateway/service/MetricsService.java:97-135 | One entry per provider with attempts, holding its counts. |
| Metrics.MaxLatency | src/main/java/org/taha/paymentgateway/service/MetricsService.java:79-82 | 0 without attempts. Otherwise an attempt's latency at least every other. |
| Metrics.GetSummary | src/main/java/org/taha/paymentgateway/service/MetricsService.java:35-95 | Total, successful, failed, per-status, per-provider and max latency as above. |
| ApiLog.PaymentApiIsNotLogged | src/main/java/org/taha/paymentgateway/observability/ApiLogFilter.java:53-56 | Paths under /v1/ (the payment API) are never logged. |
| ApiLog.BodyText | src/main/java/org/taha/paymentgateway/observability/ApiLogFilter.java:120-134 | An empty cached body is null. |
| ApiLog.CachedRequestBody | src/main/java/org/taha/paymentgateway/observability/ApiLogFilter.java:58 | The cached request body is a prefix of the body, at most 10 × 1024 long, and the whole body iff it fits. |
| ApiLog.GetHeaders | src/main/java/org/taha/paymentgateway/observability/ApiLogFilter.java:136-149 | Keeps exactly the headers that are not authorization, cookie or x-api-key in any case, each with its value. |
| ApiLog.MatchAt | src/main/java/org/taha/paymentgateway/observability/ApiLogFilter.java:163-174 | A match starts at a quote, ends within the body, and its replacement is no longer than it. |
| ApiLog.ReplaceFrom | src/main/java/org/taha/paymentgateway/observability/ApiLogFilter.java:163-174 | Never lengthens. Text without a quote is kept. |
| ApiLog.MaskSensitiveData | src/main/java/org/taha/paymentgateway/observability/ApiLogFilter.java:163-174 | Null stays null. Masking never lengthens, and a body without a quote is kept. |
| ApiLog.PlainTextKept | src/main/java/org/taha/paymentgateway/observability/ApiLogFilter.java:163-174 | A quote-free stretch is copied unchanged. |
| ApiLog.CardFieldMasked | src/main/java/org/taha/paymentgateway/observability/ApiLogFilter.java:167-168 | A 16-digit cardNumber value becomes first 4 + "********" + last 4. |
| ApiLog.CvvFieldMasked | src/main/java/org/taha/paymentgateway/observability/ApiLogFilter.java:169-171 | A 3–4 digit cvv value becomes "***". |
| ApiLog.FindPaymentPath | src/main/java/org/taha/paymentgateway/observability/ApiLogFilter.java:151-161 | The 36 id characters of the leftmost "/payments/" match, or none iff there is no match. |
| ApiLog.ExtractPaymentId | src/main/java/org/taha/paymentgateway/observability/ApiLogFilter.java:151-161 | The leftmost match's 36 characters when they parse as a UUID; null when they do not, or when nothing matches. |
| ApiLog.CanonicalUuidParses | src/main/java/org/taha/paymentgateway/observability/ApiLogFilter.java:155-158 | Every canonical UUID text parses. |
| ApiLog.DemoPathYieldsPaymentId | src/main/java/org/taha/paymentgateway/observability/ApiLogFilter.java:151-161 | "/api/demo/payments/" + a canonical UUID + anything gives that UUID. |
| ApiLog.Truncate | src/main/java/org/taha/paymentgateway/observability/ApiLogService.java:52-55 | Null stays null. Within the limit the text is unchanged; otherwise the first max characters + "...", of length max + 3. |
| ApiLog.TruncateIdempotent | src/main/java/org/taha/paymentgateway/observability/ApiLogService.java:52-55 | Truncated text within the limit is not changed again. |
| ApiLog.ApiLogService.LogRequest | src/main/java/org/taha/paymentgateway/observability/ApiLogService.java:20-42 | Appends one entry with headers cut at 2000 and bodies at 5000, or nothing if storing fails. No error escapes. |
| ApiLog.ApiLogFilter.DoFilter | src/main/java/org/taha/paymentgateway/observability/ApiLogFilter.java:38-77 | The response body is always copied out. Only a logged /api/ path appends one entry, whose masked body comes from at most the 10 KB the request wrapper caches. |
| ExceptionHandling.Handle | src/main/java/org/taha/paymentgateway/api/exception/GlobalExceptionHandler.java:32-149 | 404 iff not found; 409 iff state or idempotency conflict; 502 iff provider error; 500 iff unexpected; 400 otherwise. Payment exceptions keep their code and message. Details appear iff validation failed. Fixed texts are used for validation, missing header, type mismatch and internal error. |
| ExceptionHandling.StatusIsOneOfFive | src/main/java/org/taha/paymentgateway/api/exception/GlobalExceptionHandler.java:32-140 | Every fault gets one of five statuses. |
| ExceptionHandling.PaymentExceptionIsNeverInternal | src/main/java/org/taha/paymentgateway/api/exception/GlobalExceptionHandler.java:32-82 | A payment exception is never a 500 and has no details. |
| ExceptionHandling.InternalErrorHidesCause | src/main/java/org/taha/paymentgateway/api/exception/GlobalExceptionHandler.java:134-140 | A 500 reply never depends on the failure's text. |
| ExceptionHandling.KindNotCodeDecidesStatus | src/main/java/org/taha/paymentgateway/api/exception/GlobalExceptionHandler.java:31-82 | The exception's kind, not its code, picks the status. |
| ExceptionHandling.ConflictsKeepTheirCodes | src/main/java/org/taha/paymentgateway/api/exception/GlobalExceptionHandler.java:43-60 | Both conflicts are 409, with different codes. |
| ExceptionHandling.ValidationReportsEveryField | src/main/java/org/taha/paymentgateway/api/exception/GlobalExceptionHandler.java:87-106 | Every field error is reported, in order. |

## Left out

### Framework, runtime and I/O
- Transaction rollback (`@Transactional`): the model keeps the in-order step effects. So on a provider failure, the attempt row and the FAILED status stay even though the real rollback on the thrown exception may discard them.
- Self-invocation: `processEvent` and `dispatchWebhook` are called on the same object, so their `@Transactional` annotation takes no effect; the model treats each row update as a plain save.
- Database and HTTP I/O: the BIN query, provider calls, the webhook POST and JPA persistence are parameters or in-memory sequences. A RestTemplate 4xx/5xx answer arrives as a client failure, as RestTemplate's default error handler raises it. Any other exception from the exchange (an unusable URL, say) is a separate outcome that the dispatcher does not catch.
- Cryptography and JSON: HMAC-SHA256, SHA-256 and the JSON mapper are function-valued parameters. A payload is a snapshot value or "malformed".
- Scheduling and `@Async`: one poll or dispatch step is a method call.
- Randomness and clocks: new UUIDs are row positions. RANDOM mode is a coin parameter. The demo reference code and latency are parameters, and `now` is a parameter.
- `ThreeDs.ThreeDsSessionEntity.OnCreate`: the two `now()` calls of the callback are one reading.
- Provider registry order: the source's HashMap order is unspecified; the model fixes it as a sequence.
- Header rendering: `headers.toString()` of a HashMap is a parameter (`renderHeaders`), since the map's order is unspecified.

### Not modelled
- Floating-point metrics: success rates, averages, the 24-hour window and the demo dashboard/log statistics.
- Correlation ids, the MDC and `generateTraceId`: the trace id is a parameter.
- The payment and admin controllers, the request-log level filter and the frontend.
- The demo `getTestCards`, `createOrder`, `getPaymentDetail` and `getApiLogs` endpoints, which are listings or creation without decision logic.
- Exceptions thrown by the rest of the filter chain inside `DoFilter`.
- Amounts with more than two decimals (money is whole cents).
- `ApiLog.ExtractPaymentId`: `UUID.fromString` also accepts some non-canonical texts (the model's parse keeps its five-piece, hex, below-2^63 rule), and hex digits beyond 16 per piece are not modelled.
- `Demo.DemoController.Verify3ds`: open-session-in-view is assumed, so the session updated by the 3DS service is the one read back.
- `Demo.DemoController.ProcessPayment`: open-session-in-view is assumed here too, so the payment the 3DS service marked (`requires3ds`, `threeDsSessionId`) is the object saved with the card fields; without it the controller's stale copy would overwrite those two fields.
- `Demo.CheckCard`: a null card number or CVV is not modelled; both are strings.
- `Common.ToUpper` and `Common.ToLower` map only ASCII letters. Java's locale-aware case mapping (for example "ß" to "SS", or the Turkish dotted and dotless i) is not modelled, so the upper-cased currency and the lower-cased header names are exact only for ASCII text.
- `Routing.SelectProvider`: each adapter's health answer is fixed for the whole call. The source calls `healthCheck()` afresh for every rule naming the adapter and again in the fallback scan, so an adapter whose health changes within one call is not modelled.
- `WebhookDispatch.WebhookDispatcher.DispatchWebhooks`: one `now` serves the poll and every delivery's attempt and retry times, where the source reads the clock again for each; only the two millisecond readings of the signature and the timestamp header are taken per delivery.
- `Domain.ToResponse`: the payment's `updatedAt` timestamp is not modelled, nor is `PaymentResponse.updatedAt`. It is set on insert and on every update, and `toResponse` copies it into the API view. That view is also the event payload and the stored idempotent response, so none of them carries it. The other response fields are copied exactly.
- `Idempotency.IdempotencyService.Hash`: a digest function parameter stands for SHA-256; only its shape (64 lower-case hex) and determinism are stated.

## Findings

| source | as written | input that shows it | evidently intended | confidence | as-written member | corrected member |
|---|---|---|---|---|---|---|
| src/main/java/org/taha/paymentgateway/webhook/WebhookDispatcher.java:82, 143 | The signature covers `System.currentTimeMillis()` read inside `generateSignature`, while the `X-Webhook-Timestamp` header reads the clock again | Signature at 1000 ms, header at 1001 ms: a merchant checking MAC(payload + "." + header) rejects a genuine webhook | One reading used for both | not executed | WebhookDispatch.RequestAsWritten (with WebhookDispatch.ClockTickRejectsRequest) | WebhookDispatch.SignedRequest (with WebhookDispatch.SignedRequestVerifies) |
| src/main/java/org/taha/paymentgateway/webhook/WebhookDispatcher.java:106-111 | Only `RestClientException` is caught. Any other exception from `exchange` skips `save(delivery)` and also ends the `for` loop of `dispatchWebhooks`. An example is the `IllegalArgumentException` "URI is not absolute" for a merchant URL without a scheme, since `webhook_url` is not validated (MerchantConfigEntity.java:31-32) | A delivery to "merchant.example/hooks" at the head of the batch: it stays PENDING with no retry time and no retry counted. Every later poll picks it up first and throws again, so the deliveries behind it are never sent | Every failed send takes `handleFailure`: one more retry, rescheduled, EXHAUSTED after five | not executed | WebhookDispatch.WebhookDispatcher.DispatchWebhooks (with WebhookDispatch.WebhookDispatcher.SchemelessUrlStopsBatch and WebhookDispatch.WebhookDispatcher.EscapedDeliveryStaysDue) | WebhookDispatch.AfterDispatchCatchingAll (with WebhookDispatch.CaughtEscapeIsCounted) |
