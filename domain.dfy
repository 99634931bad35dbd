/**
 * Entities, request bodies and exceptions of the payment gateway, as values.
 *
 * Conventions used throughout the model:
 *   - amounts are integers in minor units (cents): 100.00 is 10000;
 *   - commission rates are integers in hundredths of a percent: 1.99 is 199;
 *   - instants are integers (seconds);
 *   - an identifier is the position of the row in the sequence that stores it,
 *     which makes every freshly assigned identifier distinct from the old ones.
 */
module Domain {
  import opened Common

  type Uuid = nat
  type Instant = int
  type Money = int

  /** Text of an identifier as it appears in messages and URLs. */
  function IdText(id: Uuid): string {
    NatToString(id)
  }

  datatype PaymentStatus =
    | Created | Authorized | Captured | Refunded | PartiallyRefunded | Failed | Cancelled
  {
    /** The enum constant's name, as stored and reported. */
    function Name(): string {
      match this
      case Created => "CREATED"
      case Authorized => "AUTHORIZED"
      case Captured => "CAPTURED"
      case Refunded => "REFUNDED"
      case PartiallyRefunded => "PARTIALLY_REFUNDED"
      case Failed => "FAILED"
      case Cancelled => "CANCELLED"
    }
  }

  const AllPaymentStatuses: seq<PaymentStatus> :=
    [Created, Authorized, Captured, Refunded, PartiallyRefunded, Failed, Cancelled]

  datatype AttemptStatus = AttemptSuccess | AttemptFailure | AttemptTimeout | AttemptRequires3ds | AttemptPending

  datatype OperationType = Authorize | Capture | Refund | Void

  /** A payment row. The four trailing fields are written only by the demo card flow. */
  datatype Payment = Payment(
    id: Uuid,
    merchantId: string,
    amount: Money,
    currency: string,
    orderId: Option<string>,
    customerEmail: Option<string>,
    description: Option<string>,
    providerReference: Option<string>,
    requires3ds: bool,
    threeDsSessionId: Option<Uuid>,
    cardBin: Option<string>,
    cardLastFour: Option<string>,
    status: PaymentStatus,
    createdAt: Instant,
    commissionRate: Option<int>,
    commissionAmount: Option<Money>,
    netAmount: Option<Money>,
    providerName: Option<string>)

  /** The API view of a payment. */
  datatype PaymentResponse = PaymentResponse(
    id: Uuid,
    merchantId: string,
    amount: Money,
    currency: string,
    orderId: Option<string>,
    customerEmail: Option<string>,
    description: Option<string>,
    status: PaymentStatus,
    providerReference: Option<string>,
    createdAt: Instant)

  function ToResponse(p: Payment): (r: PaymentResponse)
    ensures r.id == p.id && r.merchantId == p.merchantId && r.status == p.status
  {
    PaymentResponse(p.id, p.merchantId, p.amount, p.currency, p.orderId, p.customerEmail,
                    p.description, p.status, p.providerReference, p.createdAt)
  }

  /** One call to a provider. */
  datatype Attempt = Attempt(
    id: Uuid,
    paymentId: Uuid,
    provider: string,
    operation: OperationType,
    status: AttemptStatus,
    providerReference: Option<string>,
    errorCode: Option<string>,
    errorMessage: Option<string>,
    latencyMs: int,
    createdAt: Instant)

  /** A completed money movement (capture or refund). */
  datatype Transaction = Transaction(
    id: Uuid,
    paymentId: Uuid,
    txType: OperationType,
    amount: Money,
    status: string,
    providerReference: Option<string>,
    createdAt: Instant)

  datatype MerchantConfig = MerchantConfig(
    merchantId: string,
    webhookUrl: Option<string>,
    webhookSecret: Option<string>)

  /** `findByMerchantId`: the merchant column is unique, the first row stands for it. */
  function FindMerchantConfig(configs: seq<MerchantConfig>, merchantId: string): (r: Option<MerchantConfig>)
    ensures r.Some? ==> r.value in configs && r.value.merchantId == merchantId
    ensures r.None? ==> forall c | c in configs :: c.merchantId != merchantId
  {
    if configs == [] then None
    else if configs[0].merchantId == merchantId then Some(configs[0])
    else FindMerchantConfig(configs[1..], merchantId)
  }

  /** A row of the demo card table. */
  datatype TestCard = TestCard(
    cardNumber: string,
    cvv: string,
    bankName: string,
    binPrefix: string,
    commissionRate: int,
    shouldFail: bool,
    failReason: Option<string>)

  /** Request bodies, as the idempotency layer serialises them (`null` for an absent body). */
  datatype CreatePaymentRequest = CreatePaymentRequest(
    amount: Money, currency: string, orderId: Option<string>,
    customerEmail: Option<string>, description: Option<string>)
  datatype AuthorizePaymentRequest = AuthorizePaymentRequest(
    cardToken: string, cardBin: Option<string>, threeDsPreference: Option<string>)
  datatype CapturePaymentRequest = CapturePaymentRequest(amount: Option<Money>)
  datatype RefundPaymentRequest = RefundPaymentRequest(amount: Option<Money>, reason: Option<string>)

  datatype RequestBody =
    | CreateBody(create: CreatePaymentRequest)
    | AuthorizeBody(authorize: AuthorizePaymentRequest)
    | CaptureBody(capture: CapturePaymentRequest)
    | RefundBody(refund: RefundPaymentRequest)
    | NullBody

  function CaptureRequestBody(req: Option<CapturePaymentRequest>): RequestBody {
    if req.Some? then CaptureBody(req.value) else NullBody
  }

  function RefundRequestBody(req: Option<RefundPaymentRequest>): RequestBody {
    if req.Some? then RefundBody(req.value) else NullBody
  }

  /** One rejected field of a request body. */
  datatype FieldError = FieldError(field: string, message: string, rejectedValue: Option<string>)

  /** Runtime failures outside the gateway's own exception family. */
  datatype RuntimeFailure =
    | NoProvidersAvailable
    | NoSuchElement
    | IndexOutOfBounds
    | IncorrectResultSize
    /** A write refused by a unique column of the store. */
    | DataIntegrityViolation
    | OtherRuntime(text: string)

  /**
   * Exceptions that leave a service. The first five are the payment exception
   * family (each carries an error code); the rest are raised by the web layer
   * or by the runtime.
   */
  datatype Fault =
    | PaymentNotFound(paymentId: Uuid)
    | InvalidPaymentState(paymentId: Uuid, current: PaymentStatus, expected: string)
    | IdempotencyConflict(idempotencyKey: string)
    | ProviderFailure(providerName: string, providerCode: Option<string>, providerMessage: Option<string>)
    | PaymentError(code: string, text: string)
    | ValidationFailed(fieldErrors: seq<FieldError>)
    | MissingHeader(headerName: string)
    | TypeMismatch(parameterName: string, value: string)
    | Unexpected(failure: RuntimeFailure)
  {
    predicate IsPaymentException() {
      PaymentNotFound? || InvalidPaymentState? || IdempotencyConflict? || ProviderFailure? || PaymentError?
    }

    /** `PaymentException.getErrorCode()`. */
    function ErrorCode(): Option<string>
      requires IsPaymentException()
    {
      match this
      case PaymentNotFound(_) => Some("PAYMENT_NOT_FOUND")
      case InvalidPaymentState(_, _, _) => Some("INVALID_PAYMENT_STATE")
      case IdempotencyConflict(_) => Some("IDEMPOTENCY_CONFLICT")
      case ProviderFailure(_, code, _) => code
      case PaymentError(code, _) => Some(code)
    }

    /** `Throwable.getMessage()` of a payment exception. */
    function Message(): string
      requires IsPaymentException()
    {
      match this
      case PaymentNotFound(id) => "Payment not found: " + IdText(id)
      case InvalidPaymentState(id, current, expected) =>
        "Payment " + IdText(id) + " is in " + current.Name() + " status, expected " + expected
      case IdempotencyConflict(key) =>
        "Idempotency key already used with different request body: " + key
      case ProviderFailure(name, _, msg) =>
        "[" + name + "] " + (if msg.Some? then msg.value else "null")
      case PaymentError(_, text) => text
    }
  }
}
