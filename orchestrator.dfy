/**
 * The payment orchestrator as the service object that writes the stores step
 * by step. Each operation is proved to leave the stores exactly as the
 * matching step of `PaymentFlow` describes and to answer what that step answers.
 */
module Orchestration {
  import opened Common
  import opened Domain
  import opened Providers
  import opened BinLookup
  import opened RoutingRules
  import opened Routing
  import opened Idempotency
  import opened Outbox
  import opened Repositories
  import opened PaymentFlow

  class PaymentOrchestrator {
    const payments: PaymentRepository
    const attempts: PaymentAttemptRepository
    const transactions: TransactionRepository
    const outbox: OutboxEventRepository
    const idempotency: IdempotencyService
    /** The routing engine's inputs: the rule table, the BIN table and the adapter registry. */
    const rules: seq<RoutingRule>
    const db: BinDatabase
    const registry: seq<AdapterEntry>
    /** The answer each provider adapter gives to a call. */
    const provider: ProviderCall -> ProviderResult
    /** The JSON serialiser. */
    const serialize: RequestBody -> string

    constructor(payments: PaymentRepository, attempts: PaymentAttemptRepository, transactions: TransactionRepository,
                outbox: OutboxEventRepository, idempotency: IdempotencyService, rules: seq<RoutingRule>,
                db: BinDatabase, registry: seq<AdapterEntry>, provider: ProviderCall -> ProviderResult,
                serialize: RequestBody -> string)
      ensures this.payments == payments && this.attempts == attempts && this.transactions == transactions
      ensures this.outbox == outbox && this.idempotency == idempotency
      ensures this.rules == rules && this.db == db && this.registry == registry
      ensures this.provider == provider && this.serialize == serialize
    {
      this.payments := payments;
      this.attempts := attempts;
      this.transactions := transactions;
      this.outbox := outbox;
      this.idempotency := idempotency;
      this.rules := rules;
      this.db := db;
      this.registry := registry;
      this.provider := provider;
      this.serialize := serialize;
    }

    predicate Valid()
      reads payments, attempts, transactions, outbox, idempotency
    {
      payments.Valid() && attempts.Valid() && transactions.Valid() && outbox.Valid() && idempotency.Valid()
    }

    /** The stores as one snapshot. */
    function Snapshot(): (t: Tables)
      reads payments, attempts, transactions, outbox, idempotency
      ensures Valid() <==> TablesValid(t)
    {
      Tables(payments.rows, attempts.rows, transactions.rows, outbox.events, idempotency.records)
    }

    /** The world of one call: this service's collaborators, the measured latency and the clock. */
    function EnvAt(latencyMs: int, now: Instant): Env {
      Env(rules, db, registry, provider, latencyMs, serialize, now)
    }

    // ---------- private helpers ----------

    /** `publishEvent(payment, eventType)`. */
    method PublishEvent(p: Payment, eventType: string, now: Instant)
      requires outbox.Valid()
      modifies outbox
      ensures outbox.Valid()
      ensures outbox.events == Publish(old(outbox.events), p, eventType, now)
    {
      outbox.Add(OutboxEvent(|outbox.events|, "Payment", p.id, eventType, PaymentSnapshot(ToResponse(p)), New, 0, now, None));
    }

    /** `saveAttempt(paymentId, operation, result, latencyMs, providerName)`. */
    method SaveAttempt(paymentId: Uuid, op: OperationType, result: ProviderResult, latencyMs: int,
                       providerName: string, now: Instant)
      requires attempts.Valid()
      modifies attempts
      ensures attempts.Valid()
      ensures attempts.rows == LogAttempt(old(attempts.rows), paymentId, op, result, latencyMs, providerName, now)
    {
      attempts.Add(Attempt(|attempts.rows|, paymentId, providerName, op, result.status, result.providerReference,
                           result.errorCode, result.errorMessage, latencyMs, now));
    }

    /** `saveTransaction(paymentId, type, amount, providerReference)`. */
    method SaveTransaction(paymentId: Uuid, txType: OperationType, amount: Money, providerReference: Option<string>,
                           now: Instant)
      requires transactions.Valid()
      modifies transactions
      ensures transactions.Valid()
      ensures transactions.rows == LogTransaction(old(transactions.rows), paymentId, txType, amount, providerReference, now)
    {
      transactions.Add(Transaction(|transactions.rows|, paymentId, txType, amount, "COMPLETED", providerReference, now));
    }

    /** `saveIdempotency(key, request, response)`, for a key the replay check found unknown. */
    method SaveIdempotency(key: Option<string>, body: RequestBody, response: PaymentResponse, now: Instant)
      requires idempotency.Valid()
      requires key.None? || FindRecord(idempotency.records, key.value).None?
      modifies idempotency
      ensures idempotency.Valid()
      ensures idempotency.records ==
        Remember(old(idempotency.records), key, body, response, serialize, idempotency.digest, now)
    {
      if key.Some? {
        var requestHash: Digest := idempotency.Hash(serialize(body));
        var _ := idempotency.Save(key.value, requestHash, response, now);
      }
    }

    // ---------- the four operations ----------

    /** `createPayment(merchantId, request, idempotencyKey)`. */
    method CreatePayment(merchantId: string, req: CreatePaymentRequest, key: Option<string>, now: Instant)
      returns (r: Result<PaymentResponse, Fault>)
      requires Valid()
      modifies payments, outbox, idempotency
      ensures Valid()
      ensures var s := CreatePaymentStep(old(Snapshot()), merchantId, req, key, EnvAt(0, now), idempotency.digest);
        Snapshot() == s.tables && r == s.result
    {
      var replay := Replay(idempotency.records, key, CreateBody(req), serialize, idempotency.digest);
      if replay.Some? {
        return replay.value;
      }
      var masked := MaskEmail(req.customerEmail);
      if masked.Err? {
        return Err(masked.error);
      }
      var payment := NewPayment(|payments.rows|, merchantId, req, masked.value, now);
      payments.Add(payment);
      PublishEvent(payment, "PaymentCreated", now);
      var response := ToResponse(payment);
      SaveIdempotency(key, CreateBody(req), response, now);
      r := Ok(response);
    }

    /** `authorize(paymentId, merchantId, request, idempotencyKey)`. */
    method Authorize(paymentId: Uuid, merchantId: string, req: AuthorizePaymentRequest, key: Option<string>,
                     latencyMs: int, now: Instant)
      returns (r: Result<PaymentResponse, Fault>)
      requires Valid()
      modifies payments, attempts, outbox, idempotency
      ensures Valid()
      ensures var s := AuthorizeStep(old(Snapshot()), paymentId, merchantId, req, key, EnvAt(latencyMs, now),
                                     idempotency.digest);
        Snapshot() == s.tables && r == s.result
    {
      var replay := Replay(idempotency.records, key, AuthorizeBody(req), serialize, idempotency.digest);
      if replay.Some? {
        return replay.value;
      }
      var found := PaymentForMerchant(payments.rows, paymentId, merchantId);
      if found.Err? {
        return Err(found.error);
      }
      var payment := found.value;
      if payment.status != Created {
        return Err(InvalidPaymentState(paymentId, payment.status, "CREATED"));
      }
      var routing := SelectProvider(ContextOf(merchantId, payment.currency, req.cardBin), rules, registry, db);
      if routing.Err? {
        return Err(routing.error);
      }
      r := AuthorizeWithProvider(paymentId, merchantId, routing.value.providerName, req, key, latencyMs, now);
    }

    /** The stages of `authorize` after its checks. */
    method AuthorizeWithProvider(paymentId: Uuid, merchantId: string, providerName: string,
                                 req: AuthorizePaymentRequest, key: Option<string>, latencyMs: int, now: Instant)
      returns (r: Result<PaymentResponse, Fault>)
      requires Valid()
      requires paymentId < |payments.rows| && payments.rows[paymentId].status == Created
      requires key.None? || FindRecord(idempotency.records, key.value).None?
      modifies payments, attempts, outbox, idempotency
      ensures Valid()
      ensures var s := AuthorizeWith(old(Snapshot()), paymentId, merchantId, providerName, req, key,
                                     EnvAt(latencyMs, now), idempotency.digest);
        Snapshot() == s.tables && r == s.result
    {
      var payment := payments.rows[paymentId];
      var result := provider(AuthorizeCall(providerName,
        AuthorizeContext(paymentId, payment.amount, payment.currency, req.cardToken, req.cardBin, merchantId)));
      SaveAttempt(paymentId, OperationType.Authorize, result, latencyMs, providerName, now);
      if result.status == AttemptSuccess {
        payment := payment.(status := Authorized, providerReference := result.providerReference);
        PublishEvent(payment, "PaymentAuthorized", now);
      } else if result.status != AttemptRequires3ds {
        // The status change of the managed entity is written at commit.
        payment := payment.(status := Failed);
        payments.Update(payment);
        PublishEvent(payment, "PaymentFailed", now);
        return Err(ProviderFailure(providerName, result.errorCode, result.errorMessage));
      }
      payments.Update(payment);
      ghost var beforeSave := Snapshot();
      var response := ToResponse(payment);
      SaveIdempotency(key, AuthorizeBody(req), response, now);
      r := Ok(response);
      assert Snapshot() == Finish(beforeSave, key, AuthorizeBody(req), payment, EnvAt(latencyMs, now), idempotency.digest).tables;
    }

    /** The adapter for capture and refund: the authorizing one if registered, else the first registered. */
    method ProviderForFollowUp(paymentId: Uuid) returns (r: Result<string, Fault>)
      ensures r == ResolveProvider(registry, LastAuthorizeProvider(attempts.rows, paymentId))
    {
      var providerName := LastAuthorizeProvider(attempts.rows, paymentId);
      if LookupAdapter(registry, providerName).Some? {
        return Ok(providerName);
      }
      if registry == [] {
        return Err(Unexpected(NoSuchElement));
      }
      r := Ok(registry[0].name);
    }

    /** `capture(paymentId, merchantId, request, idempotencyKey)`. */
    method Capture(paymentId: Uuid, merchantId: string, req: Option<CapturePaymentRequest>, key: Option<string>,
                   latencyMs: int, now: Instant)
      returns (r: Result<PaymentResponse, Fault>)
      requires Valid()
      modifies payments, attempts, transactions, outbox, idempotency
      ensures Valid()
      ensures var s := CaptureStep(old(Snapshot()), paymentId, merchantId, req, key, EnvAt(latencyMs, now),
                                   idempotency.digest);
        Snapshot() == s.tables && r == s.result
    {
      var replay := Replay(idempotency.records, key, CaptureRequestBody(req), serialize, idempotency.digest);
      if replay.Some? {
        return replay.value;
      }
      var found := PaymentForMerchant(payments.rows, paymentId, merchantId);
      if found.Err? {
        return Err(found.error);
      }
      var payment := found.value;
      if payment.status != Authorized {
        return Err(InvalidPaymentState(paymentId, payment.status, "AUTHORIZED"));
      }
      var amount := RequestedOrFull(if req.Some? then req.value.amount else None, payment);
      var resolved := ProviderForFollowUp(paymentId);
      if resolved.Err? {
        return Err(resolved.error);
      }
      r := CaptureWithProvider(paymentId, amount, resolved.value, req, key, latencyMs, now);
    }

    /** The stages of `capture` after its checks. */
    method CaptureWithProvider(paymentId: Uuid, amount: Money, providerName: string,
                               req: Option<CapturePaymentRequest>, key: Option<string>, latencyMs: int, now: Instant)
      returns (r: Result<PaymentResponse, Fault>)
      requires Valid()
      requires paymentId < |payments.rows| && payments.rows[paymentId].status == Authorized
      requires key.None? || FindRecord(idempotency.records, key.value).None?
      modifies payments, attempts, transactions, outbox, idempotency
      ensures Valid()
      ensures var s := CaptureWith(old(Snapshot()), paymentId, amount, providerName, req, key,
                                   EnvAt(latencyMs, now), idempotency.digest);
        Snapshot() == s.tables && r == s.result
    {
      var payment := payments.rows[paymentId];
      var result := provider(CaptureCall(providerName,
        CaptureContext(paymentId, payment.providerReference, amount, payment.currency)));
      SaveAttempt(paymentId, OperationType.Capture, result, latencyMs, providerName, now);
      if result.status != AttemptSuccess {
        return Err(ProviderFailure(providerName, result.errorCode, result.errorMessage));
      }
      payment := payment.(status := Captured);
      SaveTransaction(paymentId, OperationType.Capture, amount, result.providerReference, now);
      PublishEvent(payment, "PaymentCaptured", now);
      payments.Update(payment);
      var response := ToResponse(payment);
      SaveIdempotency(key, CaptureRequestBody(req), response, now);
      r := Ok(response);
    }

    /** `calculateTotalRefunded(paymentId)`: walks the ledger adding the payment's refunds. */
    method TotalRefunded(paymentId: Uuid) returns (total: Money)
      ensures total == RefundSum(transactions.rows, paymentId)
    {
      var rows := transactions.rows;
      total := 0;
      var i := 0;
      while i < |rows|
        invariant 0 <= i <= |rows|
        invariant total == RefundSum(rows[..i], paymentId)
      {
        assert rows[..i + 1][..i] == rows[..i];
        if rows[i].paymentId == paymentId && rows[i].txType == OperationType.Refund {
          total := total + rows[i].amount;
        }
        i := i + 1;
      }
      assert rows[..i] == rows;
    }

    /** `refund(paymentId, merchantId, request, idempotencyKey)`. */
    method Refund(paymentId: Uuid, merchantId: string, req: Option<RefundPaymentRequest>, key: Option<string>,
                  latencyMs: int, now: Instant)
      returns (r: Result<PaymentResponse, Fault>)
      requires Valid()
      modifies payments, attempts, transactions, outbox, idempotency
      ensures Valid()
      ensures var s := RefundStep(old(Snapshot()), paymentId, merchantId, req, key, EnvAt(latencyMs, now),
                                  idempotency.digest);
        Snapshot() == s.tables && r == s.result
    {
      var replay := Replay(idempotency.records, key, RefundRequestBody(req), serialize, idempotency.digest);
      if replay.Some? {
        return replay.value;
      }
      var found := PaymentForMerchant(payments.rows, paymentId, merchantId);
      if found.Err? {
        return Err(found.error);
      }
      var payment := found.value;
      if payment.status != Captured && payment.status != PartiallyRefunded {
        return Err(InvalidPaymentState(paymentId, payment.status, "CAPTURED or PARTIALLY_REFUNDED"));
      }
      var amount := RequestedOrFull(if req.Some? then req.value.amount else None, payment);
      var reason := if req.Some? then req.value.reason else None;
      var resolved := ProviderForFollowUp(paymentId);
      if resolved.Err? {
        return Err(resolved.error);
      }
      r := RefundWithProvider(paymentId, amount, reason, resolved.value, req, key, latencyMs, now);
    }

    /** The stages of `refund` after its checks. */
    method RefundWithProvider(paymentId: Uuid, amount: Money, reason: Option<string>, providerName: string,
                              req: Option<RefundPaymentRequest>, key: Option<string>, latencyMs: int, now: Instant)
      returns (r: Result<PaymentResponse, Fault>)
      requires Valid()
      requires paymentId < |payments.rows|
      requires payments.rows[paymentId].status == Captured || payments.rows[paymentId].status == PartiallyRefunded
      requires key.None? || FindRecord(idempotency.records, key.value).None?
      modifies payments, attempts, transactions, outbox, idempotency
      ensures Valid()
      ensures var s := RefundWith(old(Snapshot()), paymentId, amount, reason, providerName, req, key,
                                  EnvAt(latencyMs, now), idempotency.digest);
        Snapshot() == s.tables && r == s.result
    {
      var payment := payments.rows[paymentId];
      var result := provider(RefundCall(providerName,
        RefundContext(paymentId, payment.providerReference, amount, payment.currency, reason)));
      SaveAttempt(paymentId, OperationType.Refund, result, latencyMs, providerName, now);
      if result.status != AttemptSuccess {
        return Err(ProviderFailure(providerName, result.errorCode, result.errorMessage));
      }
      var prior := TotalRefunded(paymentId);
      payment := payment.(status := RefundedStatus(prior, amount, payment.amount));
      SaveTransaction(paymentId, OperationType.Refund, amount, result.providerReference, now);
      PublishEvent(payment, "PaymentRefunded", now);
      payments.Update(payment);
      var response := ToResponse(payment);
      SaveIdempotency(key, RefundRequestBody(req), response, now);
      r := Ok(response);
    }

    // ---------- queries ----------

    /** `getPayment(paymentId, merchantId)`: the payment's view, for its own merchant only. */
    function GetPayment(paymentId: Uuid, merchantId: string): (r: Result<PaymentResponse, Fault>)
      reads payments
      ensures r.Ok? <==> paymentId < |payments.rows| && payments.rows[paymentId].merchantId == merchantId
      ensures r.Ok? ==> r.value == ToResponse(payments.rows[paymentId]) && r.value.merchantId == merchantId
      ensures r.Err? ==> r.error == PaymentNotFound(paymentId)
    {
      match PaymentForMerchant(payments.rows, paymentId, merchantId)
      case Ok(p) => Ok(ToResponse(p))
      case Err(f) => Err(f)
    }

    /** `getAttempts(paymentId, merchantId)`: after the ownership check, the payment's attempts newest first. */
    function GetAttempts(paymentId: Uuid, merchantId: string): (r: Result<seq<Attempt>, Fault>)
      reads payments, attempts
      ensures r.Ok? <==> paymentId < |payments.rows| && payments.rows[paymentId].merchantId == merchantId
      ensures r.Err? ==> r.error == PaymentNotFound(paymentId)
      ensures r.Ok? ==> forall a :: a in r.value <==> a in attempts.rows && a.paymentId == paymentId
      ensures r.Ok? ==> forall i, j | 0 <= i < j < |r.value| :: r.value[i].createdAt >= r.value[j].createdAt
    {
      match PaymentForMerchant(payments.rows, paymentId, merchantId)
      case Ok(_) => Ok(FindAttemptsNewestFirst(attempts.rows, paymentId))
      case Err(f) => Err(f)
    }
  }
}
