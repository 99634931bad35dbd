/**
 * The payment lifecycle as pure steps over a snapshot of the stores. Each
 * mutating operation runs the same stages in order: idempotency replay or
 * conflict, merchant-scoped load, status precondition, provider choice,
 * provider call, attempt row, then status change, ledger row and outbox event.
 *
 * The world outside the gateway is an `Env`: the routing rule table, the BIN
 * table, the adapter registry with the health each adapter reports, the
 * answer every provider gives to a call, the measured latency, the request
 * serialiser and the clock.
 */
module PaymentFlow {
  import opened Common
  import opened Domain
  import opened Providers
  import opened MockProvider
  import opened BinLookup
  import opened RoutingRules
  import opened Routing
  import opened Idempotency
  import opened Outbox
  import opened Repositories

  // ---------- customer e-mail masking ----------

  /** Every piece of `s` between occurrences of `c` (Java `split` with a negative limit). */
  function SplitAll(s: string, c: char): (parts: seq<string>)
    ensures |parts| >= 1
    ensures forall i | 0 <= i < |parts| :: c !in parts[i]
  {
    if s == [] then [""]
    else
      var rest := SplitAll(s[1..], c);
      if s[0] == c then [""] + rest else [[s[0]] + rest[0]] + rest[1..]
  }

  /** Java `split` with limit zero drops the trailing empty pieces. */
  function DropTrailingEmpty(parts: seq<string>): (r: seq<string>)
    ensures |r| <= |parts| && r == parts[..|r|]
    ensures r == [] || r[|r| - 1] != ""
    ensures forall i | |r| <= i < |parts| :: parts[i] == ""
  {
    if parts == [] then []
    else if parts[|parts| - 1] == "" then DropTrailingEmpty(parts[..|parts| - 1])
    else parts
  }

  /** `s.split(c)` for a one-character separator. */
  function JavaSplit(s: string, c: char): seq<string> {
    DropTrailingEmpty(SplitAll(s, c))
  }

  lemma {:induction false} SplitAllAfterPiece(piece: string, c: char, rest: string)
    requires c !in piece
    ensures SplitAll(piece + [c] + rest, c) == [piece] + SplitAll(rest, c)
  {
    if piece == [] {
      assert piece + [c] + rest == [c] + rest;
      assert ([c] + rest)[1..] == rest;
    } else {
      assert (piece + [c] + rest)[1..] == piece[1..] + [c] + rest;
      SplitAllAfterPiece(piece[1..], c, rest);
      assert [piece[0]] + piece[1..] == piece;
    }
  }

  lemma {:induction false} SplitAllOfPiece(piece: string, c: char)
    requires c !in piece
    ensures SplitAll(piece, c) == [piece]
  {
    if piece != [] {
      SplitAllOfPiece(piece[1..], c);
      assert [piece[0]] + piece[1..] == piece;
    }
  }

  /**
   * `maskEmail(email)`: an absent address or one without '@' is kept; otherwise
   * the local part is reduced to "**" when it has at most two characters, or
   * to its first and last characters around "***". An address whose split
   * yields no domain piece makes the array access fail.
   */
  function MaskEmail(email: Option<string>): (r: Result<Option<string>, Fault>)
    ensures email.None? || '@' !in email.value ==> r == Ok(email)
    ensures r.Err? ==> r.error == Unexpected(IndexOutOfBounds)
    ensures r.Ok? && email.Some? && '@' in email.value ==> r.value.Some? && '@' in r.value.value
  {
    if email.None? || '@' !in email.value then Ok(email)
    else
      var parts := JavaSplit(email.value, '@');
      if |parts| < 2 then Err(Unexpected(IndexOutOfBounds))
      else
        var local := parts[0];
        if |local| <= 2 then Ok(Some("**@" + parts[1]))
        else Ok(Some([local[0]] + "***" + [local[|local| - 1]] + "@" + parts[1]))
  }

  /** For a plain `local@domain` address the domain is kept and the local part masked. */
  lemma {:induction false} MaskEmailOfAddress(local: string, domain: string)
    requires '@' !in local && '@' !in domain && domain != ""
    ensures MaskEmail(Some(local + "@" + domain)) ==
      Ok(Some(if |local| <= 2 then "**@" + domain
              else [local[0]] + "***" + [local[|local| - 1]] + "@" + domain))
  {
    var email := local + "@" + domain;
    assert email[|local|] == '@';
    SplitAllAfterPiece(local, '@', domain);
    SplitAllOfPiece(domain, '@');
    assert SplitAll(email, '@') == [local, domain];
  }

  /** An address ending in '@' has no domain piece: masking it fails. */
  lemma {:induction false} MaskEmailWithoutDomainFails(local: string)
    requires '@' !in local
    ensures MaskEmail(Some(local + "@")).Err?
  {
    var email := local + "@";
    assert email[|local|] == '@';
    assert email == local + ['@'] + "";
    SplitAllAfterPiece(local, '@', "");
    assert SplitAll(email, '@') == [local, ""];
    assert SplitAll(email, '@')[..1] == [local];
  }

  // ---------- stores and environment ----------

  /** One snapshot of the stores the orchestrator writes. */
  datatype Tables = Tables(
    payments: seq<Payment>,
    attempts: seq<Attempt>,
    transactions: seq<Transaction>,
    outbox: seq<OutboxEvent>,
    idempotency: seq<IdempotencyRecord>)

  /** Row ids are positions and idempotency keys are unique. */
  predicate TablesValid(t: Tables) {
    && (forall i | 0 <= i < |t.payments| :: t.payments[i].id == i)
    && (forall i | 0 <= i < |t.attempts| :: t.attempts[i].id == i)
    && (forall i | 0 <= i < |t.transactions| :: t.transactions[i].id == i)
    && (forall i | 0 <= i < |t.outbox| :: t.outbox[i].id == i)
    && UniqueKeys(t.idempotency)
  }

  /** A call made to a named provider. */
  datatype ProviderCall =
    | AuthorizeCall(provider: string, authorizeContext: AuthorizeContext)
    | CaptureCall(provider: string, captureContext: CaptureContext)
    | RefundCall(provider: string, refundContext: RefundContext)

  datatype Env = Env(
    rules: seq<RoutingRule>,
    db: BinDatabase,
    registry: seq<AdapterEntry>,
    provider: ProviderCall -> ProviderResult,
    latencyMs: int,
    serialize: RequestBody -> string,
    now: Instant)

  datatype StepResult = StepResult(tables: Tables, result: Result<PaymentResponse, Fault>)

  // ---------- helpers ----------

  /**
   * `checkIdempotency`, when a key is given: nothing when the key is unknown;
   * the stored response when the stored hash is the hash of this request;
   * a conflict otherwise.
   */
  function Replay(records: seq<IdempotencyRecord>, key: Option<string>, body: RequestBody,
                  serialize: RequestBody -> string, digest: string -> Digest)
    : (r: Option<Result<PaymentResponse, Fault>>)
    ensures r.None? <==> key.None? || FindRecord(records, key.value).None?
    ensures r.Some? ==>
      var rec := FindRecord(records, key.value).value;
      r.value == if rec.requestHash == digest(serialize(body)) then Ok(rec.response)
                 else Err(IdempotencyConflict(key.value))
  {
    if key.None? then None
    else match FindRecord(records, key.value)
      case None => None
      case Some(rec) =>
        if rec.requestHash != digest(serialize(body)) then Some(Err(IdempotencyConflict(key.value)))
        else Some(Ok(rec.response))
  }

  /** `saveIdempotency`: the request's hash and the response under the key, when a key is given. */
  function Remember(records: seq<IdempotencyRecord>, key: Option<string>, body: RequestBody, response: PaymentResponse,
                    serialize: RequestBody -> string, digest: string -> Digest, now: Instant): seq<IdempotencyRecord>
  {
    if key.None? then records
    else records + [IdempotencyRecord(key.value, digest(serialize(body)), response, now)]
  }

  /** `getPaymentForMerchant`: a payment that is absent or belongs to another merchant is not found. */
  function PaymentForMerchant(payments: seq<Payment>, paymentId: Uuid, merchantId: string): (r: Result<Payment, Fault>)
    ensures r.Err? <==> paymentId >= |payments| || payments[paymentId].merchantId != merchantId
    ensures r.Err? ==> r.error == PaymentNotFound(paymentId)
    ensures r.Ok? ==> r.value == payments[paymentId]
  {
    if paymentId < |payments| && payments[paymentId].merchantId == merchantId then Ok(payments[paymentId])
    else Err(PaymentNotFound(paymentId))
  }

  predicate IsSuccessfulAuthorize(a: Attempt) {
    a.operation == Authorize && a.status == AttemptSuccess
  }

  function FirstSuccessfulAuthorize(attempts: seq<Attempt>): (r: Option<nat>)
    ensures r.Some? ==> r.value < |attempts| && IsSuccessfulAuthorize(attempts[r.value])
    ensures r.Some? ==> forall j | 0 <= j < r.value :: !IsSuccessfulAuthorize(attempts[j])
    ensures r.None? ==> forall j | 0 <= j < |attempts| :: !IsSuccessfulAuthorize(attempts[j])
  {
    if attempts == [] then None
    else if IsSuccessfulAuthorize(attempts[0]) then Some(0)
    else
      var rest := FirstSuccessfulAuthorize(attempts[1..]);
      if rest.Some? then Some(rest.value + 1) else None
  }

  /** In a newest-first list, the first successful authorization is at least as recent as every other one. */
  lemma {:induction false} FirstSuccessIsNewest(r: seq<Attempt>, k: nat)
    requires forall i, j | 0 <= i < j < |r| :: r[i].createdAt >= r[j].createdAt
    requires k < |r| && forall j | 0 <= j < k :: !IsSuccessfulAuthorize(r[j])
    ensures forall b | b in r && IsSuccessfulAuthorize(b) :: b.createdAt <= r[k].createdAt
  {
    forall b | b in r && IsSuccessfulAuthorize(b)
      ensures b.createdAt <= r[k].createdAt
    {
      var j :| 0 <= j < |r| && r[j] == b;
      assert j >= k;
    }
  }

  /** A list with no successful authorization at any index has none as a member. */
  lemma NoSuccessInList(r: seq<Attempt>)
    requires forall j | 0 <= j < |r| :: !IsSuccessfulAuthorize(r[j])
    ensures forall a | a in r :: !IsSuccessfulAuthorize(a)
  {
    forall a | a in r
      ensures !IsSuccessfulAuthorize(a)
    {
      var j :| 0 <= j < |r| && r[j] == a;
    }
  }

  /**
   * `getLastAuthorizeProvider`: the provider of the newest successful
   * authorization of the payment, else "MOCK_PROVIDER".
   */
  function LastAuthorizeProvider(attempts: seq<Attempt>, paymentId: Uuid): (name: string)
    ensures (forall a | a in attempts && a.paymentId == paymentId :: !IsSuccessfulAuthorize(a)) ==>
      name == MockProviderName
    ensures name == MockProviderName ||
      exists a | a in attempts && a.paymentId == paymentId && IsSuccessfulAuthorize(a) :: a.provider == name
    ensures (exists a | a in attempts && a.paymentId == paymentId :: IsSuccessfulAuthorize(a)) ==>
      exists a | a in attempts && a.paymentId == paymentId && IsSuccessfulAuthorize(a) ::
        a.provider == name &&
        forall b | b in attempts && b.paymentId == paymentId && IsSuccessfulAuthorize(b) :: b.createdAt <= a.createdAt
  {
    var newestFirst := FindAttemptsNewestFirst(attempts, paymentId);
    var i := FirstSuccessfulAuthorize(newestFirst);
    if i.Some? then
      FirstSuccessIsNewest(newestFirst, i.value);
      assert newestFirst[i.value] in newestFirst;
      newestFirst[i.value].provider
    else
      NoSuccessInList(newestFirst);
      MockProviderName
  }

  /**
   * The adapter used for capture and refund: the one registered under `name`,
   * else the first registered adapter; none at all is a runtime failure.
   */
  function ResolveProvider(registry: seq<AdapterEntry>, name: string): (r: Result<string, Fault>)
    ensures r.Err? <==> registry == []
    ensures r.Err? ==> r.error == Unexpected(NoSuchElement)
    ensures r.Ok? ==> exists a | a in registry :: a.name == r.value
    ensures LookupAdapter(registry, name).Some? ==> r == Ok(name)
  {
    if LookupAdapter(registry, name).Some? then Ok(name)
    else if registry == [] then Err(Unexpected(NoSuchElement))
    else Ok(registry[0].name)
  }

  /** `calculateTotalRefunded`: the sum of the payment's REFUND transactions. */
  function RefundSum(transactions: seq<Transaction>, paymentId: Uuid): Money {
    if transactions == [] then 0
    else
      var last := transactions[|transactions| - 1];
      RefundSum(transactions[..|transactions| - 1], paymentId) +
        (if last.paymentId == paymentId && last.txType == Refund then last.amount else 0)
  }

  /** `publishEvent`: a NEW event about the payment, carrying its API view. */
  function Publish(outbox: seq<OutboxEvent>, p: Payment, eventType: string, now: Instant): (r: seq<OutboxEvent>)
    ensures |r| == |outbox| + 1 && r[..|outbox|] == outbox
    ensures r[|outbox|].id == |outbox| && r[|outbox|].status == New && r[|outbox|].retryCount == 0
    ensures r[|outbox|].aggregateId == p.id && r[|outbox|].eventType == eventType
    ensures r[|outbox|].payload == PaymentSnapshot(ToResponse(p))
  {
    outbox + [OutboxEvent(|outbox|, "Payment", p.id, eventType, PaymentSnapshot(ToResponse(p)), New, 0, now, None)]
  }

  /** `saveAttempt`. */
  function LogAttempt(attempts: seq<Attempt>, paymentId: Uuid, op: OperationType, result: ProviderResult,
                      latencyMs: int, providerName: string, now: Instant): seq<Attempt>
  {
    attempts + [Attempt(|attempts|, paymentId, providerName, op, result.status, result.providerReference,
                        result.errorCode, result.errorMessage, latencyMs, now)]
  }

  /** `saveTransaction`: a COMPLETED ledger row. */
  function LogTransaction(transactions: seq<Transaction>, paymentId: Uuid, txType: OperationType, amount: Money,
                          providerReference: Option<string>, now: Instant): seq<Transaction>
  {
    transactions + [Transaction(|transactions|, paymentId, txType, amount, "COMPLETED", providerReference, now)]
  }

  /** The last stage of a successful step: answer with the payment's view and remember it under the key. */
  function Finish(t: Tables, key: Option<string>, body: RequestBody, p: Payment, env: Env, digest: string -> Digest)
    : (s: StepResult)
    requires key.None? || FindRecord(t.idempotency, key.value).None?
    ensures UniqueKeys(t.idempotency) ==> UniqueKeys(s.tables.idempotency)
    ensures key.Some? ==> FindRecord(s.tables.idempotency, key.value) == Some(IdempotencyRecord(
      key.value, digest(env.serialize(body)), ToResponse(p), env.now))
    ensures s.result == Ok(ToResponse(p))
  {
    var records := Remember(t.idempotency, key, body, ToResponse(p), env.serialize, digest, env.now);
    if key.Some? then
      FindFreshAfterAppend(t.idempotency, IdempotencyRecord(key.value, digest(env.serialize(body)), ToResponse(p), env.now));
      StepResult(t.(idempotency := records), Ok(ToResponse(p)))
    else
      StepResult(t.(idempotency := records), Ok(ToResponse(p)))
  }

  /** A record appended under a fresh key is what its key finds, and keeps keys unique when they were. */
  lemma FindFreshAfterAppend(records: seq<IdempotencyRecord>, rec: IdempotencyRecord)
    requires FindRecord(records, rec.key).None?
    ensures FindRecord(records + [rec], rec.key) == Some(rec)
    ensures UniqueKeys(records) ==> UniqueKeys(records + [rec])
  {
    if UniqueKeys(records) {
      FindAfterAppend(records, rec, rec.key);
    } else {
      FindRecordAfterAll(records, rec);
    }
  }

  lemma {:induction false} FindRecordAfterAll(records: seq<IdempotencyRecord>, rec: IdempotencyRecord)
    requires FindRecord(records, rec.key).None?
    ensures FindRecord(records + [rec], rec.key) == Some(rec)
  {
    if records == [] {
      assert records + [rec] == [rec];
    } else {
      assert (records + [rec])[1..] == records[1..] + [rec];
      FindRecordAfterAll(records[1..], rec);
    }
  }

  // ---------- lifecycle ----------

  /** The status moves a step may make. */
  predicate Transition(from: PaymentStatus, to: PaymentStatus) {
    || from == to
    || (from == Created && (to == Authorized || to == Failed))
    || (from == Authorized && to == Captured)
    || ((from == Captured || from == PartiallyRefunded) && (to == PartiallyRefunded || to == Refunded))
  }

  /** Payments keep their ids; each moves along `Transition`; new payments start CREATED. */
  predicate Lifecycle(before: seq<Payment>, after: seq<Payment>) {
    && |before| <= |after|
    && (forall i | 0 <= i < |before| :: after[i].id == before[i].id && Transition(before[i].status, after[i].status))
    && (forall i | |before| <= i < |after| :: after[i].status == Created)
  }

  /** Only the payment `id` may differ between `before` and `after`. */
  predicate OnlyPaymentChanged(before: seq<Payment>, after: seq<Payment>, id: Uuid) {
    |before| == |after| && forall i | 0 <= i < |before| && i != id :: after[i] == before[i]
  }

  /** A step that moves one payment along `Transition` and leaves the others alone keeps the lifecycle. */
  lemma StatusMoveKeepsLifecycle(before: seq<Payment>, after: seq<Payment>, id: Uuid)
    requires OnlyPaymentChanged(before, after, id) && id < |before|
    requires after[id].id == before[id].id && Transition(before[id].status, after[id].status)
    ensures Lifecycle(before, after)
  {
  }

  // ---------- the four operations ----------

  function NewPayment(id: Uuid, merchantId: string, req: CreatePaymentRequest, maskedEmail: Option<string>, now: Instant)
    : Payment
  {
    Payment(id, merchantId, req.amount, ToUpper(req.currency), req.orderId, maskedEmail, req.description,
            None, false, None, None, None, Created, now, None, None, None, None)
  }

  /**
   * `createPayment`: a replay or conflict writes nothing; otherwise one
   * CREATED payment with the upper-cased currency and masked e-mail, one
   * PaymentCreated event and, under a key, one idempotency record.
   */
  function CreatePaymentStep(t: Tables, merchantId: string, req: CreatePaymentRequest, key: Option<string>,
                             env: Env, digest: string -> Digest): (s: StepResult)
    ensures s.result.Err? ==> s.tables == t
    ensures Replay(t.idempotency, key, CreateBody(req), env.serialize, digest).Some? ==>
      s == StepResult(t, Replay(t.idempotency, key, CreateBody(req), env.serialize, digest).value)
    ensures key.Some? && Replay(t.idempotency, key, CreateBody(req), env.serialize, digest).None? && s.result.Ok? ==>
      FindRecord(s.tables.idempotency, key.value) ==
        Some(IdempotencyRecord(key.value, digest(env.serialize(CreateBody(req))), s.result.value, env.now))
    ensures UniqueKeys(t.idempotency) ==> UniqueKeys(s.tables.idempotency)
    ensures Lifecycle(t.payments, s.tables.payments)
    ensures s.tables.attempts == t.attempts && s.tables.transactions == t.transactions
    ensures s.tables != t ==>
      && |s.tables.payments| == |t.payments| + 1 && |s.tables.outbox| == |t.outbox| + 1
      && s.tables.payments[|t.payments|].currency == ToUpper(req.currency)
      && s.tables.outbox[|t.outbox|].eventType == "PaymentCreated"
      && s.tables.outbox[|t.outbox|].status == New
      && s.result == Ok(ToResponse(s.tables.payments[|t.payments|]))
  {
    var replay := Replay(t.idempotency, key, CreateBody(req), env.serialize, digest);
    if replay.Some? then StepResult(t, replay.value)
    else match MaskEmail(req.customerEmail)
      case Err(f) => StepResult(t, Err(f))
      case Ok(masked) =>
        var p := NewPayment(|t.payments|, merchantId, req, masked, env.now);
        Finish(t.(payments := t.payments + [p], outbox := Publish(t.outbox, p, "PaymentCreated", env.now)),
               key, CreateBody(req), p, env, digest)
  }

  /**
   * `authorize`: after the replay, ownership and CREATED checks, routing
   * picks the provider and its answer is logged as an attempt. SUCCESS
   * authorizes the payment, REQUIRES_3DS leaves it CREATED, anything else
   * fails it and reports the provider's error.
   */
  function AuthorizeStep(t: Tables, paymentId: Uuid, merchantId: string, req: AuthorizePaymentRequest,
                         key: Option<string>, env: Env, digest: string -> Digest): (s: StepResult)
    ensures s.result.Err? && !s.result.error.ProviderFailure? ==> s.tables == t
    ensures Replay(t.idempotency, key, AuthorizeBody(req), env.serialize, digest).Some? ==>
      s == StepResult(t, Replay(t.idempotency, key, AuthorizeBody(req), env.serialize, digest).value)
    ensures key.Some? && Replay(t.idempotency, key, AuthorizeBody(req), env.serialize, digest).None? && s.result.Ok? ==>
      FindRecord(s.tables.idempotency, key.value) ==
        Some(IdempotencyRecord(key.value, digest(env.serialize(AuthorizeBody(req))), s.result.value, env.now))
    ensures UniqueKeys(t.idempotency) ==> UniqueKeys(s.tables.idempotency)
    ensures Lifecycle(t.payments, s.tables.payments) && OnlyPaymentChanged(t.payments, s.tables.payments, paymentId)
    ensures s.tables.transactions == t.transactions
    ensures s.tables.attempts == t.attempts ||
      (&& |s.tables.attempts| == |t.attempts| + 1 && s.tables.attempts[..|t.attempts|] == t.attempts
       && s.tables.attempts[|t.attempts|].paymentId == paymentId && s.tables.attempts[|t.attempts|].operation == Authorize)
    ensures s.result.Ok? && s.tables != t ==> s.result.value.status == Authorized || s.result.value.status == Created
    ensures s.result.Err? && s.result.error.ProviderFailure? ==>
      paymentId < |s.tables.payments| && s.tables.payments[paymentId].status == Failed && |s.tables.outbox| == |t.outbox| + 1
  {
    var replay := Replay(t.idempotency, key, AuthorizeBody(req), env.serialize, digest);
    if replay.Some? then StepResult(t, replay.value)
    else match PaymentForMerchant(t.payments, paymentId, merchantId)
      case Err(f) => StepResult(t, Err(f))
      case Ok(p) =>
        if p.status != Created then StepResult(t, Err(InvalidPaymentState(paymentId, p.status, "CREATED")))
        else match SelectProvider(ContextOf(merchantId, p.currency, req.cardBin), env.rules, env.registry, env.db)
          case Err(f) => StepResult(t, Err(f))
          case Ok(routing) =>
            var s := AuthorizeWith(t, paymentId, merchantId, routing.providerName, req, key, env, digest);
            StatusMoveKeepsLifecycle(t.payments, s.tables.payments, paymentId);
            s
  }

  /**
   * The stages of `authorize` after its checks: the call to the routed
   * provider, the attempt row and the outcome of the provider's answer.
   */
  function AuthorizeWith(t: Tables, paymentId: Uuid, merchantId: string, providerName: string,
                         req: AuthorizePaymentRequest, key: Option<string>, env: Env, digest: string -> Digest)
    : (s: StepResult)
    requires paymentId < |t.payments| && t.payments[paymentId].status == Created
    requires key.None? || FindRecord(t.idempotency, key.value).None?
    ensures s.result.Err? ==> s.result.error.ProviderFailure? && s.result.error.providerName == providerName
    ensures key.Some? && s.result.Ok? ==>
      FindRecord(s.tables.idempotency, key.value) ==
        Some(IdempotencyRecord(key.value, digest(env.serialize(AuthorizeBody(req))), s.result.value, env.now))
    ensures UniqueKeys(t.idempotency) ==> UniqueKeys(s.tables.idempotency)
    ensures s.result.Err? ==> s.tables.idempotency == t.idempotency
    ensures OnlyPaymentChanged(t.payments, s.tables.payments, paymentId)
    ensures s.tables.payments[paymentId].id == t.payments[paymentId].id
    ensures s.result.Ok? ==> s.result.value.status == Authorized || s.result.value.status == Created
    ensures s.result.Ok? ==> s.tables.payments[paymentId].status == s.result.value.status
    ensures s.result.Err? ==> s.tables.payments[paymentId].status == Failed
    ensures s.tables.transactions == t.transactions
    ensures |s.tables.attempts| == |t.attempts| + 1 && s.tables.attempts[..|t.attempts|] == t.attempts
    ensures s.tables.attempts[|t.attempts|].paymentId == paymentId
    ensures s.tables.attempts[|t.attempts|].operation == Authorize
    ensures s.tables.attempts[|t.attempts|].provider == providerName
    ensures s.result.Err? ==> |s.tables.outbox| == |t.outbox| + 1
  {
    var p := t.payments[paymentId];
    var result := env.provider(AuthorizeCall(providerName,
      AuthorizeContext(paymentId, p.amount, p.currency, req.cardToken, req.cardBin, merchantId)));
    var attempts := LogAttempt(t.attempts, paymentId, Authorize, result, env.latencyMs, providerName, env.now);
    if result.status == AttemptSuccess then
      var authorized := p.(status := Authorized, providerReference := result.providerReference);
      Finish(t.(attempts := attempts, payments := t.payments[paymentId := authorized],
                outbox := Publish(t.outbox, authorized, "PaymentAuthorized", env.now)),
             key, AuthorizeBody(req), authorized, env, digest)
    else if result.status == AttemptRequires3ds then
      Finish(t.(attempts := attempts), key, AuthorizeBody(req), p, env, digest)
    else
      var failed := p.(status := Failed);
      StepResult(t.(attempts := attempts, payments := t.payments[paymentId := failed],
                    outbox := Publish(t.outbox, failed, "PaymentFailed", env.now)),
                 Err(ProviderFailure(providerName, result.errorCode, result.errorMessage)))
  }

  /** The amount of a capture or refund: the requested one, else the payment's full amount. */
  function RequestedOrFull(requested: Option<Money>, p: Payment): Money {
    if requested.Some? then requested.value else p.amount
  }

  /**
   * `capture`: after the replay, ownership and AUTHORIZED checks, the
   * authorizing provider is called and the attempt logged. SUCCESS captures
   * the payment with one CAPTURE transaction and a PaymentCaptured event;
   * anything else reports the provider's error and leaves the payment as it was.
   */
  function CaptureStep(t: Tables, paymentId: Uuid, merchantId: string, req: Option<CapturePaymentRequest>,
                       key: Option<string>, env: Env, digest: string -> Digest): (s: StepResult)
    ensures s.result.Err? && !s.result.error.ProviderFailure? ==> s.tables == t
    ensures Replay(t.idempotency, key, CaptureRequestBody(req), env.serialize, digest).Some? ==>
      s == StepResult(t, Replay(t.idempotency, key, CaptureRequestBody(req), env.serialize, digest).value)
    ensures key.Some? && Replay(t.idempotency, key, CaptureRequestBody(req), env.serialize, digest).None? && s.result.Ok? ==>
      FindRecord(s.tables.idempotency, key.value) ==
        Some(IdempotencyRecord(key.value, digest(env.serialize(CaptureRequestBody(req))), s.result.value, env.now))
    ensures UniqueKeys(t.idempotency) ==> UniqueKeys(s.tables.idempotency)
    ensures Lifecycle(t.payments, s.tables.payments) && OnlyPaymentChanged(t.payments, s.tables.payments, paymentId)
    ensures s.result.Err? ==> s.tables.payments == t.payments && s.tables.transactions == t.transactions
    ensures s.result.Ok? && s.tables != t ==>
      && s.result.value.status == Captured
      && |s.tables.transactions| == |t.transactions| + 1
      && s.tables.transactions[|t.transactions|].txType == Capture
      && paymentId < |t.payments|
      && s.tables.transactions[|t.transactions|].amount ==
           RequestedOrFull(if req.Some? then req.value.amount else None, t.payments[paymentId])
  {
    var replay := Replay(t.idempotency, key, CaptureRequestBody(req), env.serialize, digest);
    if replay.Some? then StepResult(t, replay.value)
    else CaptureFresh(t, paymentId, merchantId, req, key, env, digest)
  }

  /** `capture` for a request that is not a replay: the ownership and status checks, then the provider stages. */
  function CaptureFresh(t: Tables, paymentId: Uuid, merchantId: string, req: Option<CapturePaymentRequest>,
                        key: Option<string>, env: Env, digest: string -> Digest): (s: StepResult)
    requires key.None? || FindRecord(t.idempotency, key.value).None?
    ensures s.result.Err? && !s.result.error.ProviderFailure? ==> s.tables == t
    ensures key.Some? && s.result.Ok? ==>
      FindRecord(s.tables.idempotency, key.value) ==
        Some(IdempotencyRecord(key.value, digest(env.serialize(CaptureRequestBody(req))), s.result.value, env.now))
    ensures UniqueKeys(t.idempotency) ==> UniqueKeys(s.tables.idempotency)
    ensures Lifecycle(t.payments, s.tables.payments) && OnlyPaymentChanged(t.payments, s.tables.payments, paymentId)
    ensures s.result.Err? ==> s.tables.payments == t.payments && s.tables.transactions == t.transactions
    ensures s.result.Ok? && s.tables != t ==>
      && s.result.value.status == Captured
      && |s.tables.transactions| == |t.transactions| + 1
      && s.tables.transactions[|t.transactions|].txType == Capture
      && paymentId < |t.payments|
      && s.tables.transactions[|t.transactions|].amount ==
           RequestedOrFull(if req.Some? then req.value.amount else None, t.payments[paymentId])
    ensures |s.tables.attempts| > |t.attempts| ==>
      ResolveProvider(env.registry, LastAuthorizeProvider(t.attempts, paymentId)) == Ok(s.tables.attempts[|t.attempts|].provider)
  {
    match PaymentForMerchant(t.payments, paymentId, merchantId)
    case Err(f) => StepResult(t, Err(f))
    case Ok(p) =>
      if p.status != Authorized then StepResult(t, Err(InvalidPaymentState(paymentId, p.status, "AUTHORIZED")))
      else
        var amount := RequestedOrFull(if req.Some? then req.value.amount else None, p);
        match ResolveProvider(env.registry, LastAuthorizeProvider(t.attempts, paymentId))
        case Err(f) => StepResult(t, Err(f))
        case Ok(providerName) =>
          var s := CaptureWith(t, paymentId, amount, providerName, req, key, env, digest);
          StatusMoveKeepsLifecycle(t.payments, s.tables.payments, paymentId);
          s
  }

  /** The stages of `capture` after its checks: the provider call, the attempt row and the outcome. */
  function CaptureWith(t: Tables, paymentId: Uuid, amount: Money, providerName: string,
                       req: Option<CapturePaymentRequest>, key: Option<string>, env: Env, digest: string -> Digest)
    : (s: StepResult)
    requires paymentId < |t.payments| && t.payments[paymentId].status == Authorized
    requires key.None? || FindRecord(t.idempotency, key.value).None?
    ensures s.result.Err? ==> s.result.error.ProviderFailure? && s.result.error.providerName == providerName
    ensures key.Some? && s.result.Ok? ==>
      FindRecord(s.tables.idempotency, key.value) ==
        Some(IdempotencyRecord(key.value, digest(env.serialize(CaptureRequestBody(req))), s.result.value, env.now))
    ensures UniqueKeys(t.idempotency) ==> UniqueKeys(s.tables.idempotency)
    ensures s.result.Err? ==> s.tables == t.(attempts := s.tables.attempts)
    ensures OnlyPaymentChanged(t.payments, s.tables.payments, paymentId)
    ensures s.tables.payments[paymentId].id == t.payments[paymentId].id
    ensures s.result.Ok? ==>
      && s.result.value.status == Captured && s.tables.payments[paymentId].status == Captured
      && |s.tables.transactions| == |t.transactions| + 1
      && s.tables.transactions[|t.transactions|].txType == Capture
      && s.tables.transactions[|t.transactions|].amount == amount
    ensures |s.tables.attempts| == |t.attempts| + 1 && s.tables.attempts[..|t.attempts|] == t.attempts
    ensures s.tables.attempts[|t.attempts|].paymentId == paymentId
    ensures s.tables.attempts[|t.attempts|].operation == Capture
    ensures s.tables.attempts[|t.attempts|].provider == providerName
  {
    var p := t.payments[paymentId];
    var result := env.provider(CaptureCall(providerName,
      CaptureContext(paymentId, p.providerReference, amount, p.currency)));
    var attempts := LogAttempt(t.attempts, paymentId, Capture, result, env.latencyMs, providerName, env.now);
    if result.status == AttemptSuccess then
      var captured := p.(status := Captured);
      Finish(t.(attempts := attempts, payments := t.payments[paymentId := captured],
                transactions := LogTransaction(t.transactions, paymentId, Capture, amount,
                                               result.providerReference, env.now),
                outbox := Publish(t.outbox, captured, "PaymentCaptured", env.now)),
             key, CaptureRequestBody(req), captured, env, digest)
    else
      StepResult(t.(attempts := attempts),
                 Err(ProviderFailure(providerName, result.errorCode, result.errorMessage)))
  }

  /** The status a successful refund leaves: REFUNDED once the refunds reach the amount. */
  function RefundedStatus(priorRefunds: Money, refundAmount: Money, amount: Money): (status: PaymentStatus)
    ensures status == Refunded <==> priorRefunds + refundAmount >= amount
    ensures status == Refunded || status == PartiallyRefunded
  {
    if priorRefunds + refundAmount >= amount then Refunded else PartiallyRefunded
  }

  /**
   * `refund`: after the replay, ownership and CAPTURED / PARTIALLY_REFUNDED
   * checks, the authorizing provider is called and the attempt logged.
   * SUCCESS records one REFUND transaction of the requested amount (not
   * clamped) and a PaymentRefunded event, and sets the status by the total.
   */
  function RefundStep(t: Tables, paymentId: Uuid, merchantId: string, req: Option<RefundPaymentRequest>,
                      key: Option<string>, env: Env, digest: string -> Digest): (s: StepResult)
    ensures s.result.Err? && !s.result.error.ProviderFailure? ==> s.tables == t
    ensures Replay(t.idempotency, key, RefundRequestBody(req), env.serialize, digest).Some? ==>
      s == StepResult(t, Replay(t.idempotency, key, RefundRequestBody(req), env.serialize, digest).value)
    ensures key.Some? && Replay(t.idempotency, key, RefundRequestBody(req), env.serialize, digest).None? && s.result.Ok? ==>
      FindRecord(s.tables.idempotency, key.value) ==
        Some(IdempotencyRecord(key.value, digest(env.serialize(RefundRequestBody(req))), s.result.value, env.now))
    ensures UniqueKeys(t.idempotency) ==> UniqueKeys(s.tables.idempotency)
    ensures Lifecycle(t.payments, s.tables.payments) && OnlyPaymentChanged(t.payments, s.tables.payments, paymentId)
    ensures s.result.Err? ==> s.tables.payments == t.payments && s.tables.transactions == t.transactions
  {
    var replay := Replay(t.idempotency, key, RefundRequestBody(req), env.serialize, digest);
    if replay.Some? then StepResult(t, replay.value)
    else RefundFresh(t, paymentId, merchantId, req, key, env, digest)
  }

  /** `refund` for a request that is not a replay: the ownership and status checks, then the provider stages. */
  function RefundFresh(t: Tables, paymentId: Uuid, merchantId: string, req: Option<RefundPaymentRequest>,
                       key: Option<string>, env: Env, digest: string -> Digest): (s: StepResult)
    requires key.None? || FindRecord(t.idempotency, key.value).None?
    ensures s.result.Err? && !s.result.error.ProviderFailure? ==> s.tables == t
    ensures key.Some? && s.result.Ok? ==>
      FindRecord(s.tables.idempotency, key.value) ==
        Some(IdempotencyRecord(key.value, digest(env.serialize(RefundRequestBody(req))), s.result.value, env.now))
    ensures UniqueKeys(t.idempotency) ==> UniqueKeys(s.tables.idempotency)
    ensures Lifecycle(t.payments, s.tables.payments) && OnlyPaymentChanged(t.payments, s.tables.payments, paymentId)
    ensures s.result.Err? ==> s.tables.payments == t.payments && s.tables.transactions == t.transactions
    ensures |s.tables.attempts| > |t.attempts| ==>
      ResolveProvider(env.registry, LastAuthorizeProvider(t.attempts, paymentId)) == Ok(s.tables.attempts[|t.attempts|].provider)
  {
    match PaymentForMerchant(t.payments, paymentId, merchantId)
    case Err(f) => StepResult(t, Err(f))
    case Ok(p) =>
      if p.status != Captured && p.status != PartiallyRefunded then
        StepResult(t, Err(InvalidPaymentState(paymentId, p.status, "CAPTURED or PARTIALLY_REFUNDED")))
      else
        var amount := RequestedOrFull(if req.Some? then req.value.amount else None, p);
        var reason := if req.Some? then req.value.reason else None;
        match ResolveProvider(env.registry, LastAuthorizeProvider(t.attempts, paymentId))
        case Err(f) => StepResult(t, Err(f))
        case Ok(providerName) =>
          var s := RefundWith(t, paymentId, amount, reason, providerName, req, key, env, digest);
          StatusMoveKeepsLifecycle(t.payments, s.tables.payments, paymentId);
          s
  }

  /** The stages of `refund` after its checks: the provider call, the attempt row and the outcome. */
  function RefundWith(t: Tables, paymentId: Uuid, amount: Money, reason: Option<string>, providerName: string,
                      req: Option<RefundPaymentRequest>, key: Option<string>, env: Env, digest: string -> Digest)
    : (s: StepResult)
    requires paymentId < |t.payments|
    requires t.payments[paymentId].status == Captured || t.payments[paymentId].status == PartiallyRefunded
    requires key.None? || FindRecord(t.idempotency, key.value).None?
    ensures s.result.Err? ==> s.result.error.ProviderFailure? && s.result.error.providerName == providerName
    ensures key.Some? && s.result.Ok? ==>
      FindRecord(s.tables.idempotency, key.value) ==
        Some(IdempotencyRecord(key.value, digest(env.serialize(RefundRequestBody(req))), s.result.value, env.now))
    ensures UniqueKeys(t.idempotency) ==> UniqueKeys(s.tables.idempotency)
    ensures s.result.Err? ==> s.tables == t.(attempts := s.tables.attempts)
    ensures OnlyPaymentChanged(t.payments, s.tables.payments, paymentId)
    ensures s.tables.payments[paymentId].id == t.payments[paymentId].id
    ensures s.result.Ok? ==>
      && s.tables.payments[paymentId].status ==
           RefundedStatus(RefundSum(t.transactions, paymentId), amount, t.payments[paymentId].amount)
      && s.result == Ok(ToResponse(s.tables.payments[paymentId]))
      && |s.tables.transactions| == |t.transactions| + 1
      && s.tables.transactions == t.transactions +
           [Transaction(|t.transactions|, paymentId, Refund, amount, "COMPLETED",
                        s.tables.transactions[|t.transactions|].providerReference, env.now)]
    ensures |s.tables.attempts| == |t.attempts| + 1 && s.tables.attempts[..|t.attempts|] == t.attempts
    ensures s.tables.attempts[|t.attempts|].paymentId == paymentId
    ensures s.tables.attempts[|t.attempts|].operation == Refund
    ensures s.tables.attempts[|t.attempts|].provider == providerName
  {
    var p := t.payments[paymentId];
    var result := env.provider(RefundCall(providerName,
      RefundContext(paymentId, p.providerReference, amount, p.currency, reason)));
    var attempts := LogAttempt(t.attempts, paymentId, Refund, result, env.latencyMs, providerName, env.now);
    if result.status == AttemptSuccess then
      var refunded := p.(status := RefundedStatus(RefundSum(t.transactions, paymentId), amount, p.amount));
      Finish(t.(attempts := attempts, payments := t.payments[paymentId := refunded],
                transactions := LogTransaction(t.transactions, paymentId, Refund, amount,
                                               result.providerReference, env.now),
                outbox := Publish(t.outbox, refunded, "PaymentRefunded", env.now)),
             key, RefundRequestBody(req), refunded, env, digest)
    else
      StepResult(t.(attempts := attempts),
                 Err(ProviderFailure(providerName, result.errorCode, result.errorMessage)))
  }
}
