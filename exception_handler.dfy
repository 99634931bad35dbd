/**
 * The REST error mapping: every fault that leaves a controller becomes an
 * HTTP status and a standard error body. The handler is chosen by the most
 * specific exception kind, so the subclasses of the payment exception get
 * their own statuses before the generic 400.
 */
module ExceptionHandling {
  import opened Common
  import opened Domain

  /** The error body; `details` is present only for validation failures. */
  datatype ApiErrorResponse = ApiErrorResponse(
    errorCode: Option<string>,
    message: string,
    details: Option<seq<FieldError>>,
    traceId: string,
    timestamp: Instant)

  datatype ErrorReply = ErrorReply(status: nat, body: ApiErrorResponse)

  const NotFound: nat := 404
  const Conflict: nat := 409
  const BadGateway: nat := 502
  const BadRequest: nat := 400
  const InternalServerError: nat := 500

  const ValidationMessage: string := "Request validation failed"
  const InternalErrorMessage: string := "An unexpected error occurred"

  /** `buildErrorResponse`: a body without details. */
  function ErrorBody(code: Option<string>, message: string, traceId: string, now: Instant): ApiErrorResponse {
    ApiErrorResponse(code, message, None, traceId, now)
  }

  /** The reply `GlobalExceptionHandler` produces for `fault`. */
  function Handle(fault: Fault, traceId: string, now: Instant): (reply: ErrorReply)
    ensures reply.body.traceId == traceId && reply.body.timestamp == now
    ensures reply.status == NotFound <==> fault.PaymentNotFound?
    ensures reply.status == Conflict <==> fault.InvalidPaymentState? || fault.IdempotencyConflict?
    ensures reply.status == BadGateway <==> fault.ProviderFailure?
    ensures reply.status == InternalServerError <==> fault.Unexpected?
    ensures reply.status == BadRequest <==>
      fault.PaymentError? || fault.ValidationFailed? || fault.MissingHeader? || fault.TypeMismatch?
    ensures fault.IsPaymentException() ==>
      reply.body.errorCode == fault.ErrorCode() && reply.body.message == fault.Message()
    ensures reply.body.details.Some? <==> fault.ValidationFailed?
    ensures fault.ValidationFailed? ==>
      && reply.body.errorCode == Some("VALIDATION_ERROR") && reply.body.message == ValidationMessage
      && reply.body.details == Some(fault.fieldErrors)
    ensures fault.MissingHeader? ==>
      reply.body.errorCode == Some("MISSING_HEADER") && reply.body.message == "Required header missing: " + fault.headerName
    ensures fault.TypeMismatch? ==>
      && reply.body.errorCode == Some("INVALID_PARAMETER")
      && reply.body.message == "Invalid value '" + fault.value + "' for parameter '" + fault.parameterName + "'"
    ensures fault.Unexpected? ==>
      reply.body.errorCode == Some("INTERNAL_ERROR") && reply.body.message == InternalErrorMessage
  {
    match fault
    case PaymentNotFound(_) => ErrorReply(NotFound, ErrorBody(fault.ErrorCode(), fault.Message(), traceId, now))
    case InvalidPaymentState(_, _, _) => ErrorReply(Conflict, ErrorBody(fault.ErrorCode(), fault.Message(), traceId, now))
    case IdempotencyConflict(_) => ErrorReply(Conflict, ErrorBody(fault.ErrorCode(), fault.Message(), traceId, now))
    case ProviderFailure(_, _, _) => ErrorReply(BadGateway, ErrorBody(fault.ErrorCode(), fault.Message(), traceId, now))
    case PaymentError(_, _) => ErrorReply(BadRequest, ErrorBody(fault.ErrorCode(), fault.Message(), traceId, now))
    case ValidationFailed(fieldErrors) =>
      ErrorReply(BadRequest, ApiErrorResponse(Some("VALIDATION_ERROR"), ValidationMessage, Some(fieldErrors), traceId, now))
    case MissingHeader(name) =>
      ErrorReply(BadRequest, ErrorBody(Some("MISSING_HEADER"), "Required header missing: " + name, traceId, now))
    case TypeMismatch(name, value) =>
      ErrorReply(BadRequest, ErrorBody(Some("INVALID_PARAMETER"),
        "Invalid value '" + value + "' for parameter '" + name + "'", traceId, now))
    case Unexpected(_) =>
      ErrorReply(InternalServerError, ErrorBody(Some("INTERNAL_ERROR"), InternalErrorMessage, traceId, now))
  }

  /** Every fault gets one of the five statuses. */
  lemma StatusIsOneOfFive(fault: Fault, traceId: string, now: Instant)
    ensures Handle(fault, traceId, now).status in {NotFound, Conflict, BadGateway, BadRequest, InternalServerError}
  {
  }

  /** A payment exception is never answered with 500: it is the client's or the provider's side. */
  lemma PaymentExceptionIsNeverInternal(fault: Fault, traceId: string, now: Instant)
    requires fault.IsPaymentException()
    ensures Handle(fault, traceId, now).status != InternalServerError
    ensures Handle(fault, traceId, now).body.details.None?
  {
  }

  /**
   * The 500 reply does not depend on what went wrong: nothing of the
   * runtime failure, its text included, reaches the client.
   */
  lemma InternalErrorHidesCause(a: RuntimeFailure, b: RuntimeFailure, traceId: string, now: Instant)
    ensures Handle(Unexpected(a), traceId, now) == Handle(Unexpected(b), traceId, now)
  {
  }

  /**
   * The handler is chosen by the exception's kind, not by its code: a generic
   * payment exception that carries the code `PAYMENT_NOT_FOUND` is a 400, and
   * only the not-found exception itself is a 404.
   */
  lemma KindNotCodeDecidesStatus(id: Uuid, text: string, traceId: string, now: Instant)
    ensures Handle(PaymentError("PAYMENT_NOT_FOUND", text), traceId, now).status == BadRequest
    ensures Handle(PaymentNotFound(id), traceId, now).status == NotFound
    ensures Handle(PaymentError("PAYMENT_NOT_FOUND", text), traceId, now).body.errorCode
         == Handle(PaymentNotFound(id), traceId, now).body.errorCode
  {
  }

  /** The two conflicts share a status and stay apart by their codes. */
  lemma ConflictsKeepTheirCodes(id: Uuid, current: PaymentStatus, expected: string, key: string,
                                traceId: string, now: Instant)
    ensures Handle(InvalidPaymentState(id, current, expected), traceId, now).status
         == Handle(IdempotencyConflict(key), traceId, now).status == Conflict
    ensures Handle(InvalidPaymentState(id, current, expected), traceId, now).body.errorCode
         != Handle(IdempotencyConflict(key), traceId, now).body.errorCode
  {
  }

  /** A validation failure reports every rejected field, in order, and nothing else. */
  lemma ValidationReportsEveryField(errors: seq<FieldError>, traceId: string, now: Instant)
    ensures var details := Handle(ValidationFailed(errors), traceId, now).body.details;
      details.Some? && |details.value| == |errors| &&
      forall k | 0 <= k < |errors| :: details.value[k] == errors[k]
  {
  }
}
