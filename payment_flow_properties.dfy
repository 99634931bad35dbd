/**
 * Properties of the payment steps: the idempotency guard across two calls,
 * the order of the checks, the outcome of each provider answer, the refund
 * total and the provider that capture and refund go back to.
 */
module PaymentFlowProperties {
  import opened Common
  import opened Domain
  import opened Providers
  import opened MockProvider
  import opened Routing
  import opened Idempotency
  import opened Outbox
  import opened PaymentFlow

  // ---------- idempotency across two calls ----------

  /**
   * A second createPayment under the key of a first successful one performs
   * no write. It answers with the first response when the request hashes the
   * same, whoever the merchant is, and with a conflict otherwise.
   */
  lemma CreateRetryUnderSameKey(t: Tables, merchantId: string, req: CreatePaymentRequest, key: string, env: Env,
                                retryMerchant: string, retry: CreatePaymentRequest, retryEnv: Env, digest: string -> Digest)
    requires FindRecord(t.idempotency, key).None?
    requires CreatePaymentStep(t, merchantId, req, Some(key), env, digest).result.Ok?
    requires retryEnv.serialize == env.serialize
    ensures var first := CreatePaymentStep(t, merchantId, req, Some(key), env, digest);
      var second := CreatePaymentStep(first.tables, retryMerchant, retry, Some(key), retryEnv, digest);
      && second.tables == first.tables
      && (digest(env.serialize(CreateBody(retry))) == digest(env.serialize(CreateBody(req))) ==>
            second.result == first.result)
      && (digest(env.serialize(CreateBody(retry))) != digest(env.serialize(CreateBody(req))) ==>
            second.result == Err(IdempotencyConflict(key)))
  {
  }

  /** The same guard for authorize: a replay or a conflict, never a second provider call. */
  lemma AuthorizeRetryUnderSameKey(t: Tables, paymentId: Uuid, merchantId: string, req: AuthorizePaymentRequest,
                                   key: string, env: Env, retryMerchant: string, retry: AuthorizePaymentRequest,
                                   retryEnv: Env, digest: string -> Digest)
    requires FindRecord(t.idempotency, key).None?
    requires AuthorizeStep(t, paymentId, merchantId, req, Some(key), env, digest).result.Ok?
    requires retryEnv.serialize == env.serialize
    ensures var first := AuthorizeStep(t, paymentId, merchantId, req, Some(key), env, digest);
      var second := AuthorizeStep(first.tables, paymentId, retryMerchant, retry, Some(key), retryEnv, digest);
      && second.tables == first.tables
      && (digest(env.serialize(AuthorizeBody(retry))) == digest(env.serialize(AuthorizeBody(req))) ==>
            second.result == first.result)
      && (digest(env.serialize(AuthorizeBody(retry))) != digest(env.serialize(AuthorizeBody(req))) ==>
            second.result == Err(IdempotencyConflict(key)))
  {
  }

  /** The same guard for capture. */
  lemma CaptureRetryUnderSameKey(t: Tables, paymentId: Uuid, merchantId: string, req: Option<CapturePaymentRequest>,
                                 key: string, env: Env, retryMerchant: string, retry: Option<CapturePaymentRequest>,
                                 retryEnv: Env, digest: string -> Digest)
    requires FindRecord(t.idempotency, key).None?
    requires CaptureStep(t, paymentId, merchantId, req, Some(key), env, digest).result.Ok?
    requires retryEnv.serialize == env.serialize
    ensures var first := CaptureStep(t, paymentId, merchantId, req, Some(key), env, digest);
      var second := CaptureStep(first.tables, paymentId, retryMerchant, retry, Some(key), retryEnv, digest);
      && second.tables == first.tables
      && (digest(env.serialize(CaptureRequestBody(retry))) == digest(env.serialize(CaptureRequestBody(req))) ==>
            second.result == first.result)
      && (digest(env.serialize(CaptureRequestBody(retry))) != digest(env.serialize(CaptureRequestBody(req))) ==>
            second.result == Err(IdempotencyConflict(key)))
  {
  }

  /** The same guard for refund: a retried refund moves no money twice. */
  lemma RefundRetryUnderSameKey(t: Tables, paymentId: Uuid, merchantId: string, req: Option<RefundPaymentRequest>,
                                key: string, env: Env, retryMerchant: string, retry: Option<RefundPaymentRequest>,
                                retryEnv: Env, digest: string -> Digest)
    requires FindRecord(t.idempotency, key).None?
    requires RefundStep(t, paymentId, merchantId, req, Some(key), env, digest).result.Ok?
    requires retryEnv.serialize == env.serialize
    ensures var first := RefundStep(t, paymentId, merchantId, req, Some(key), env, digest);
      var second := RefundStep(first.tables, paymentId, retryMerchant, retry, Some(key), retryEnv, digest);
      && second.tables == first.tables
      && (digest(env.serialize(RefundRequestBody(retry))) == digest(env.serialize(RefundRequestBody(req))) ==>
            second.result == first.result)
      && (digest(env.serialize(RefundRequestBody(retry))) != digest(env.serialize(RefundRequestBody(req))) ==>
            second.result == Err(IdempotencyConflict(key)))
  {
  }

  // ---------- the checks before the provider call ----------

  /** A payment that is absent or belongs to another merchant is not found, and nothing is written. */
  lemma ForeignPaymentIsNotFound(t: Tables, paymentId: Uuid, merchantId: string, key: Option<string>, env: Env,
                                 digest: string -> Digest, authorize: AuthorizePaymentRequest,
                                 capture: Option<CapturePaymentRequest>, refund: Option<RefundPaymentRequest>)
    requires paymentId >= |t.payments| || t.payments[paymentId].merchantId != merchantId
    requires key.None? || FindRecord(t.idempotency, key.value).None?
    ensures AuthorizeStep(t, paymentId, merchantId, authorize, key, env, digest) ==
      StepResult(t, Err(PaymentNotFound(paymentId)))
    ensures CaptureStep(t, paymentId, merchantId, capture, key, env, digest) ==
      StepResult(t, Err(PaymentNotFound(paymentId)))
    ensures RefundStep(t, paymentId, merchantId, refund, key, env, digest) ==
      StepResult(t, Err(PaymentNotFound(paymentId)))
  {
  }

  /**
   * Each operation runs only from its own statuses: authorize from CREATED,
   * capture from AUTHORIZED, refund from CAPTURED or PARTIALLY_REFUNDED. From
   * any other status the state error is raised before the provider is called
   * and nothing is written.
   */
  lemma WrongStatusIsRejected(t: Tables, paymentId: Uuid, merchantId: string, key: Option<string>, env: Env,
                              digest: string -> Digest, authorize: AuthorizePaymentRequest,
                              capture: Option<CapturePaymentRequest>, refund: Option<RefundPaymentRequest>)
    requires paymentId < |t.payments| && t.payments[paymentId].merchantId == merchantId
    requires key.None? || FindRecord(t.idempotency, key.value).None?
    ensures var status := t.payments[paymentId].status;
      status != Created ==>
        AuthorizeStep(t, paymentId, merchantId, authorize, key, env, digest) ==
          StepResult(t, Err(InvalidPaymentState(paymentId, status, "CREATED")))
    ensures var status := t.payments[paymentId].status;
      status != Authorized ==>
        CaptureStep(t, paymentId, merchantId, capture, key, env, digest) ==
          StepResult(t, Err(InvalidPaymentState(paymentId, status, "AUTHORIZED")))
    ensures var status := t.payments[paymentId].status;
      status != Captured && status != PartiallyRefunded ==>
        RefundStep(t, paymentId, merchantId, refund, key, env, digest) ==
          StepResult(t, Err(InvalidPaymentState(paymentId, status, "CAPTURED or PARTIALLY_REFUNDED")))
  {
  }

  // ---------- what each provider answer does ----------

  /**
   * authorize on an owned CREATED payment: the routed provider is called and
   * its answer logged as one attempt. SUCCESS authorizes the payment with the
   * provider's reference and one PaymentAuthorized event; REQUIRES_3DS leaves
   * the payment and the outbox as they were; any other answer fails the
   * payment, adds one PaymentFailed event and reports the provider's error.
   */
  lemma AuthorizeFollowsProviderAnswer(t: Tables, paymentId: Uuid, merchantId: string, req: AuthorizePaymentRequest,
                                       key: Option<string>, env: Env, digest: string -> Digest)
    requires paymentId < |t.payments| && t.payments[paymentId].merchantId == merchantId
    requires t.payments[paymentId].status == Created
    requires key.None? || FindRecord(t.idempotency, key.value).None?
    requires env.registry != []
    ensures
      var p := t.payments[paymentId];
      var s := AuthorizeStep(t, paymentId, merchantId, req, key, env, digest);
      var routing := SelectProvider(ContextOf(merchantId, p.currency, req.cardBin), env.rules, env.registry, env.db).value;
      var answer := env.provider(AuthorizeCall(routing.providerName,
        AuthorizeContext(paymentId, p.amount, p.currency, req.cardToken, req.cardBin, merchantId)));
      && s.tables.attempts == t.attempts + [Attempt(|t.attempts|, paymentId, routing.providerName, Authorize,
           answer.status, answer.providerReference, answer.errorCode, answer.errorMessage, env.latencyMs, env.now)]
      && s.tables.transactions == t.transactions
      && (answer.status == AttemptSuccess ==>
            && s.tables.payments == t.payments[paymentId := p.(status := Authorized, providerReference := answer.providerReference)]
            && |s.tables.outbox| == |t.outbox| + 1 && s.tables.outbox[|t.outbox|].eventType == "PaymentAuthorized"
            && s.result == Ok(ToResponse(s.tables.payments[paymentId])))
      && (answer.status == AttemptRequires3ds ==>
            && s.tables.payments == t.payments && s.tables.outbox == t.outbox
            && s.result == Ok(ToResponse(p)))
      && (answer.status != AttemptSuccess && answer.status != AttemptRequires3ds ==>
            && s.tables.payments == t.payments[paymentId := p.(status := Failed)]
            && |s.tables.outbox| == |t.outbox| + 1 && s.tables.outbox[|t.outbox|].eventType == "PaymentFailed"
            && s.tables.idempotency == t.idempotency
            && s.result == Err(ProviderFailure(routing.providerName, answer.errorCode, answer.errorMessage)))
  {
  }

  /**
   * capture on an owned AUTHORIZED payment: SUCCESS captures it with one
   * CAPTURE transaction of the requested amount, or the full amount when none
   * is given, and one PaymentCaptured event; any other answer leaves the
   * payment, the ledger and the outbox as they were and reports the error.
   */
  lemma CaptureFollowsProviderAnswer(t: Tables, paymentId: Uuid, merchantId: string, req: Option<CapturePaymentRequest>,
                                     key: Option<string>, env: Env, digest: string -> Digest)
    requires paymentId < |t.payments| && t.payments[paymentId].merchantId == merchantId
    requires t.payments[paymentId].status == Authorized
    requires key.None? || FindRecord(t.idempotency, key.value).None?
    requires env.registry != []
    ensures
      var p := t.payments[paymentId];
      var s := CaptureStep(t, paymentId, merchantId, req, key, env, digest);
      var amount := RequestedOrFull(if req.Some? then req.value.amount else None, p);
      var provider := ResolveProvider(env.registry, LastAuthorizeProvider(t.attempts, paymentId)).value;
      var answer := env.provider(CaptureCall(provider, CaptureContext(paymentId, p.providerReference, amount, p.currency)));
      && |s.tables.attempts| == |t.attempts| + 1 && s.tables.attempts[..|t.attempts|] == t.attempts
      && s.tables.attempts[|t.attempts|].provider == provider
      && s.tables.attempts[|t.attempts|].status == answer.status
      && (answer.status == AttemptSuccess ==>
            && s.tables.payments == t.payments[paymentId := p.(status := Captured)]
            && s.tables.transactions == t.transactions +
                 [Transaction(|t.transactions|, paymentId, Capture, amount, "COMPLETED", answer.providerReference, env.now)]
            && |s.tables.outbox| == |t.outbox| + 1 && s.tables.outbox[|t.outbox|].eventType == "PaymentCaptured"
            && s.result == Ok(ToResponse(s.tables.payments[paymentId])))
      && (answer.status != AttemptSuccess ==>
            && s.tables.payments == t.payments && s.tables.transactions == t.transactions
            && s.tables.outbox == t.outbox && s.tables.idempotency == t.idempotency
            && s.result == Err(ProviderFailure(provider, answer.errorCode, answer.errorMessage)))
  {
  }

  /** With no adapter registered, capture and refund fail at provider resolution and write nothing. */
  lemma EmptyRegistryStopsCaptureAndRefund(t: Tables, paymentId: Uuid, merchantId: string,
                                           capture: Option<CapturePaymentRequest>, refund: Option<RefundPaymentRequest>,
                                           key: Option<string>, env: Env, digest: string -> Digest)
    requires paymentId < |t.payments| && t.payments[paymentId].merchantId == merchantId
    requires key.None? || FindRecord(t.idempotency, key.value).None?
    requires env.registry == []
    ensures t.payments[paymentId].status == Authorized ==>
      CaptureStep(t, paymentId, merchantId, capture, key, env, digest) == StepResult(t, Err(Unexpected(NoSuchElement)))
    ensures t.payments[paymentId].status in {Captured, PartiallyRefunded} ==>
      RefundStep(t, paymentId, merchantId, refund, key, env, digest) == StepResult(t, Err(Unexpected(NoSuchElement)))
  {
  }

  // ---------- refund totals ----------

  /** Appending one ledger row adds its amount to the refund total exactly when it is a refund of the payment. */
  lemma {:induction false} RefundSumAppend(transactions: seq<Transaction>, tx: Transaction, paymentId: Uuid)
    ensures RefundSum(transactions + [tx], paymentId) ==
      RefundSum(transactions, paymentId) + (if tx.paymentId == paymentId && tx.txType == Refund then tx.amount else 0)
  {
    assert (transactions + [tx])[..|transactions|] == transactions;
  }

  /** Rows of other payments and other kinds do not count towards a payment's refund total. */
  lemma {:induction false} RefundSumOfOthers(transactions: seq<Transaction>, paymentId: Uuid)
    requires forall tx | tx in transactions :: tx.paymentId != paymentId || tx.txType != Refund
    ensures RefundSum(transactions, paymentId) == 0
  {
    if transactions != [] {
      assert transactions[|transactions| - 1] in transactions;
      forall tx | tx in transactions[..|transactions| - 1]
        ensures tx.paymentId != paymentId || tx.txType != Refund
      {
        assert tx in transactions;
      }
      RefundSumOfOthers(transactions[..|transactions| - 1], paymentId);
    }
  }

  /**
   * A successful refund records one REFUND row of the requested amount, or
   * the full amount when none is given, without clamping it to what is left.
   * The payment becomes REFUNDED exactly when the refund total, this refund
   * included, reaches the payment's amount, and PARTIALLY_REFUNDED otherwise.
   */
  lemma RefundDecidesStatus(t: Tables, paymentId: Uuid, merchantId: string, req: Option<RefundPaymentRequest>,
                            key: Option<string>, env: Env, digest: string -> Digest)
    requires key.None? || FindRecord(t.idempotency, key.value).None?
    requires RefundStep(t, paymentId, merchantId, req, key, env, digest).result.Ok?
    ensures paymentId < |t.payments|
    ensures
      var p := t.payments[paymentId];
      var s := RefundStep(t, paymentId, merchantId, req, key, env, digest);
      var amount := RequestedOrFull(if req.Some? then req.value.amount else None, p);
      && s.tables.transactions == t.transactions +
           [Transaction(|t.transactions|, paymentId, Refund, amount, "COMPLETED", s.tables.transactions[|t.transactions|].providerReference, env.now)]
      && s.tables.payments == t.payments[paymentId := p.(status := s.tables.payments[paymentId].status)]
      && RefundSum(s.tables.transactions, paymentId) == RefundSum(t.transactions, paymentId) + amount
      && (s.tables.payments[paymentId].status == Refunded <==> RefundSum(s.tables.transactions, paymentId) >= p.amount)
      && (s.tables.payments[paymentId].status == PartiallyRefunded <==> RefundSum(s.tables.transactions, paymentId) < p.amount)
      && s.result == Ok(ToResponse(s.tables.payments[paymentId]))
  {
    var s := RefundStep(t, paymentId, merchantId, req, key, env, digest);
    assert paymentId < |t.payments|;
    var p := t.payments[paymentId];
    var amount := RequestedOrFull(if req.Some? then req.value.amount else None, p);
    assert |s.tables.transactions| == |t.transactions| + 1;
    var tx := s.tables.transactions[|t.transactions|];
    assert s.tables.transactions == t.transactions + [tx];
    RefundSumAppend(t.transactions, tx, paymentId);
  }

  /** Two partial refunds that together reach the amount leave the payment REFUNDED. */
  lemma {:induction false} TwoRefundsReachTheAmount(t: Tables, paymentId: Uuid, merchantId: string,
                                                    first: RefundPaymentRequest, second: RefundPaymentRequest,
                                                    env: Env, env2: Env, digest: string -> Digest)
    requires paymentId < |t.payments|
    requires forall tx | tx in t.transactions :: tx.paymentId != paymentId || tx.txType != Refund
    requires RefundStep(t, paymentId, merchantId, Some(first), None, env, digest).result.Ok?
    requires first.amount.Some? && second.amount.Some?
    requires first.amount.value + second.amount.value >= t.payments[paymentId].amount
    ensures var s1 := RefundStep(t, paymentId, merchantId, Some(first), None, env, digest);
      var s2 := RefundStep(s1.tables, paymentId, merchantId, Some(second), None, env2, digest);
      s2.result.Ok? ==> s2.tables.payments[paymentId].status == Refunded
  {
    var s1 := RefundStep(t, paymentId, merchantId, Some(first), None, env, digest);
    var s2 := RefundStep(s1.tables, paymentId, merchantId, Some(second), None, env2, digest);
    if s2.result.Ok? {
      RefundSumOfOthers(t.transactions, paymentId);
      RefundDecidesStatus(t, paymentId, merchantId, Some(first), None, env, digest);
      RefundDecidesStatus(s1.tables, paymentId, merchantId, Some(second), None, env2, digest);
      var amount := t.payments[paymentId].amount;
      assert s1.tables.payments[paymentId].amount == amount;
      assert RefundSum(s1.tables.transactions, paymentId) == first.amount.value;
      assert RefundSum(s2.tables.transactions, paymentId) >= amount;
    }
  }

  // ---------- the provider capture and refund go back to ----------

  /** With exactly one successful authorization of the payment on record, its provider is the one found. */
  lemma SoleAuthorizationNamesProvider(attempts: seq<Attempt>, paymentId: Uuid, a: Attempt)
    requires a in attempts && a.paymentId == paymentId && IsSuccessfulAuthorize(a)
    requires forall b | b in attempts && b.paymentId == paymentId && IsSuccessfulAuthorize(b) :: b == a
    ensures LastAuthorizeProvider(attempts, paymentId) == a.provider
  {
  }

  /** With no successful authorization on record, MOCK_PROVIDER is asked for, else the first adapter. */
  lemma UnauthorizedFallsBackToMock(attempts: seq<Attempt>, paymentId: Uuid, registry: seq<AdapterEntry>)
    requires forall a | a in attempts && a.paymentId == paymentId :: !IsSuccessfulAuthorize(a)
    requires registry != []
    ensures var r := ResolveProvider(registry, LastAuthorizeProvider(attempts, paymentId));
      r == Ok(if LookupAdapter(registry, MockProviderName).Some? then MockProviderName else registry[0].name)
  {
  }

  /**
   * After a successful authorization that was the payment's first, the
   * capture that follows goes to the same provider, as long as that provider
   * is still registered.
   */
  lemma CaptureGoesToAuthorizingProvider(t: Tables, paymentId: Uuid, merchantId: string, areq: AuthorizePaymentRequest,
                                         creq: Option<CapturePaymentRequest>, env: Env, env2: Env, digest: string -> Digest)
    requires forall a | a in t.attempts && a.paymentId == paymentId :: !IsSuccessfulAuthorize(a)
    requires AuthorizeStep(t, paymentId, merchantId, areq, None, env, digest).result.Ok?
    requires env2.registry == env.registry
    ensures var s1 := AuthorizeStep(t, paymentId, merchantId, areq, None, env, digest);
      var s2 := CaptureStep(s1.tables, paymentId, merchantId, creq, None, env2, digest);
      |s2.tables.attempts| > |s1.tables.attempts| && |s1.tables.attempts| > |t.attempts| ==>
        s2.tables.attempts[|s1.tables.attempts|].provider == s1.tables.attempts[|t.attempts|].provider
  {
    var s1 := AuthorizeStep(t, paymentId, merchantId, areq, None, env, digest);
    AuthorizationLeavesSoleSuccess(t, paymentId, merchantId, areq, env, digest);
    if s1.tables.payments[paymentId].status == Authorized {
      CaptureGoesToSoleAuthorizer(s1.tables, paymentId, merchantId, creq, env2, digest, s1.tables.attempts[|t.attempts|]);
    } else {
      WrongStatusIsRejected(s1.tables, paymentId, merchantId, None, env2, digest, areq, creq, None);
    }
  }

  /**
   * A successful authorize on a payment without an earlier successful
   * authorization keeps the payment with its merchant, and when it authorizes
   * the payment, its one attempt is the payment's only successful
   * authorization, at a registered provider.
   */
  lemma AuthorizationLeavesSoleSuccess(t: Tables, paymentId: Uuid, merchantId: string, areq: AuthorizePaymentRequest,
                                       env: Env, digest: string -> Digest)
    requires forall a | a in t.attempts && a.paymentId == paymentId :: !IsSuccessfulAuthorize(a)
    requires AuthorizeStep(t, paymentId, merchantId, areq, None, env, digest).result.Ok?
    ensures var s1 := AuthorizeStep(t, paymentId, merchantId, areq, None, env, digest);
      && paymentId < |s1.tables.payments| && s1.tables.payments[paymentId].merchantId == merchantId
      && |s1.tables.attempts| == |t.attempts| + 1
      && (s1.tables.payments[paymentId].status == Authorized ==>
            var a := s1.tables.attempts[|t.attempts|];
            && a in s1.tables.attempts && a.paymentId == paymentId && IsSuccessfulAuthorize(a)
            && (forall b | b in s1.tables.attempts && b.paymentId == paymentId && IsSuccessfulAuthorize(b) :: b == a)
            && LookupAdapter(env.registry, a.provider).Some?)
  {
    var s1 := AuthorizeStep(t, paymentId, merchantId, areq, None, env, digest);
    assert paymentId < |t.payments| && t.payments[paymentId].merchantId == merchantId;
    var p := t.payments[paymentId];
    assert p.status == Created by {
      WrongStatusIsRejected(t, paymentId, merchantId, None, env, digest, areq, None, None);
    }
    assert env.registry != [];
    AuthorizeFollowsProviderAnswer(t, paymentId, merchantId, areq, None, env, digest);
    var a := s1.tables.attempts[|t.attempts|];
    if s1.tables.payments[paymentId].status == Authorized {
      var routing := SelectProvider(ContextOf(merchantId, p.currency, areq.cardBin), env.rules, env.registry, env.db).value;
      var answer := env.provider(AuthorizeCall(routing.providerName,
        AuthorizeContext(paymentId, p.amount, p.currency, areq.cardToken, areq.cardBin, merchantId)));
      assert answer.status == AttemptSuccess;
      assert routing.provider in env.registry;
      AppendedSoleSuccess(t.attempts, a, paymentId);
    }
  }

  /** Appending one attempt to a payment's attempts that had no successful authorization leaves at most that one. */
  lemma AppendedSoleSuccess(before: seq<Attempt>, a: Attempt, paymentId: Uuid)
    requires forall x | x in before && x.paymentId == paymentId :: !IsSuccessfulAuthorize(x)
    ensures a in before + [a]
    ensures forall b | b in before + [a] && b.paymentId == paymentId && IsSuccessfulAuthorize(b) :: b == a
  {
  }

  /** A capture goes to the provider of the payment's one successful authorization while it is registered. */
  lemma CaptureGoesToSoleAuthorizer(t: Tables, paymentId: Uuid, merchantId: string, req: Option<CapturePaymentRequest>,
                                    env: Env, digest: string -> Digest, a: Attempt)
    requires a in t.attempts && a.paymentId == paymentId && IsSuccessfulAuthorize(a)
    requires forall b | b in t.attempts && b.paymentId == paymentId && IsSuccessfulAuthorize(b) :: b == a
    requires LookupAdapter(env.registry, a.provider).Some?
    ensures var s := CaptureStep(t, paymentId, merchantId, req, None, env, digest);
      |s.tables.attempts| > |t.attempts| ==> s.tables.attempts[|t.attempts|].provider == a.provider
  {
    SoleAuthorizationNamesProvider(t.attempts, paymentId, a);
  }

  /** A refund goes to the provider of the payment's one successful authorization while it is registered. */
  lemma RefundGoesToAuthorizingProvider(t: Tables, paymentId: Uuid, merchantId: string, req: Option<RefundPaymentRequest>,
                                        key: Option<string>, env: Env, digest: string -> Digest, a: Attempt)
    requires a in t.attempts && a.paymentId == paymentId && IsSuccessfulAuthorize(a)
    requires forall b | b in t.attempts && b.paymentId == paymentId && IsSuccessfulAuthorize(b) :: b == a
    requires LookupAdapter(env.registry, a.provider).Some?
    ensures var s := RefundStep(t, paymentId, merchantId, req, key, env, digest);
      |s.tables.attempts| > |t.attempts| ==> s.tables.attempts[|t.attempts|].provider == a.provider
  {
    SoleAuthorizationNamesProvider(t.attempts, paymentId, a);
  }
}
