/**
 * The in-process mock provider. Its behaviour is a table keyed by the current
 * mode; the mode is the adapter's only state and can be switched at run time.
 * The random parts of its answers are inputs: `token` stands for the first
 * eight characters of a random UUID and `coin` for `Math.random() > 0.3`.
 */
module MockProvider {
  import opened Common
  import opened Domain
  import opened Providers

  datatype MockMode = SuccessMode | FailMode | TimeoutMode | RandomMode | Requires3dsMode

  const MockProviderName := "MOCK_PROVIDER"

  /** Answer to `authorize` in `mode`. */
  function AuthorizeOutcome(mode: MockMode, paymentId: Uuid, token: string, coin: bool): (r: ProviderResult)
    ensures WellFormed(r)
    ensures r.status == AttemptSuccess <==> mode == SuccessMode || (mode == RandomMode && coin)
    ensures r.status == AttemptSuccess ==> r.providerReference == Some("MOCK-AUTH-" + token)
    ensures r.status == AttemptRequires3ds <==> mode == Requires3dsMode
    ensures r.status == AttemptTimeout <==> mode == TimeoutMode
    ensures mode == FailMode ==> r.errorCode == Some("MOCK_DECLINED")
    ensures mode == RandomMode && !coin ==> r.errorCode == Some("MOCK_RANDOM_FAIL")
  {
    match mode
    case SuccessMode => SuccessResult("MOCK-AUTH-" + token)
    case FailMode => FailureResult("MOCK_DECLINED", "Card declined by issuer")
    case TimeoutMode => TimeoutResult()
    case RandomMode =>
      if coin then SuccessResult("MOCK-AUTH-" + token)
      else FailureResult("MOCK_RANDOM_FAIL", "Random failure for testing")
    case Requires3dsMode => Requires3dsResult("https://mock-3ds.example.com/verify?id=" + IdText(paymentId))
  }

  /** Reference prefix of a successful mock `capture` (or `refund`). */
  function FollowUpPrefix(isRefund: bool): string {
    if isRefund then "MOCK-REF-" else "MOCK-CAP-"
  }

  /**
   * Answer to `capture` (or `refund`, when `isRefund`) in `mode`: only FAIL
   * and TIMEOUT do not succeed; SUCCESS, RANDOM and REQUIRES_3DS all succeed.
   */
  function FollowUpOutcome(mode: MockMode, isRefund: bool, token: string): (r: ProviderResult)
    ensures WellFormed(r)
    ensures r.status == AttemptSuccess <==> mode != FailMode && mode != TimeoutMode
    ensures r.status == AttemptSuccess ==> r.providerReference == Some(FollowUpPrefix(isRefund) + token)
    ensures mode == FailMode ==>
      r.errorCode == Some(if isRefund then "MOCK_REFUND_FAILED" else "MOCK_CAPTURE_FAILED")
    ensures mode == TimeoutMode ==> r.status == AttemptTimeout
  {
    match mode
    case FailMode =>
      if isRefund then FailureResult("MOCK_REFUND_FAILED", "Refund failed")
      else FailureResult("MOCK_CAPTURE_FAILED", "Capture failed")
    case TimeoutMode => TimeoutResult()
    case _ => SuccessResult(FollowUpPrefix(isRefund) + token)
  }

  /** Health reported in `mode`. */
  function HealthIn(mode: MockMode): (h: HealthStatus)
    ensures h == Unhealthy <==> mode == TimeoutMode
    ensures h == Degraded <==> mode == FailMode
    ensures h == Healthy <==> mode in {SuccessMode, RandomMode, Requires3dsMode}
  {
    match mode
    case TimeoutMode => Unhealthy
    case FailMode => Degraded
    case _ => Healthy
  }

  class MockPaymentProviderAdapter {
    var currentMode: MockMode

    constructor()
      ensures currentMode == SuccessMode
    {
      currentMode := SuccessMode;
    }

    function ProviderName(): (name: string)
      ensures name == MockProviderName
    {
      MockProviderName
    }

    method SetMode(mode: MockMode)
      modifies this
      ensures currentMode == mode
    {
      currentMode := mode;
    }

    function GetMode(): MockMode
      reads this
    {
      currentMode
    }

    method Authorize(ctx: AuthorizeContext, token: string, coin: bool) returns (r: ProviderResult)
      ensures r == AuthorizeOutcome(currentMode, ctx.paymentId, token, coin)
    {
      match currentMode
      case SuccessMode =>
        r := SuccessResult("MOCK-AUTH-" + token);
      case FailMode =>
        r := FailureResult("MOCK_DECLINED", "Card declined by issuer");
      case TimeoutMode =>
        r := TimeoutResult();
      case RandomMode =>
        if coin {
          r := SuccessResult("MOCK-AUTH-" + token);
        } else {
          r := FailureResult("MOCK_RANDOM_FAIL", "Random failure for testing");
        }
      case Requires3dsMode =>
        r := Requires3dsResult("https://mock-3ds.example.com/verify?id=" + IdText(ctx.paymentId));
    }

    // The three calls below read the current mode and answer from the tables
    // `FollowUpOutcome` and `HealthIn`, which state each mode's answer.

    method Capture(ctx: CaptureContext, token: string) returns (r: ProviderResult)
      ensures r == FollowUpOutcome(currentMode, false, token)
    {
      r := FollowUpOutcome(currentMode, false, token);
    }

    method Refund(ctx: RefundContext, token: string) returns (r: ProviderResult)
      ensures r == FollowUpOutcome(currentMode, true, token)
    {
      r := FollowUpOutcome(currentMode, true, token);
    }

    method HealthCheck() returns (h: HealthStatus)
      ensures h == HealthIn(currentMode)
    {
      h := HealthIn(currentMode);
    }
  }
}
