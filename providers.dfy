/**
 * The contract every payment provider adapter fulfils: the call contexts, the
 * normalised result of a provider call, and the health report used by routing.
 */
module Providers {
  import opened Common
  import opened Domain

  datatype AuthorizeContext = AuthorizeContext(
    paymentId: Uuid, amount: Money, currency: string, cardToken: string,
    cardBin: Option<string>, merchantId: string)

  datatype CaptureContext = CaptureContext(
    paymentId: Uuid, providerReference: Option<string>, amount: Money, currency: string)

  datatype RefundContext = RefundContext(
    paymentId: Uuid, providerReference: Option<string>, amount: Money, currency: string,
    reason: Option<string>)

  /** Normalised answer of a provider call. */
  datatype ProviderResult = ProviderResult(
    status: AttemptStatus,
    providerReference: Option<string>,
    errorCode: Option<string>,
    errorMessage: Option<string>,
    requires3DS: bool,
    threeDSUrl: Option<string>)

  function SuccessResult(providerReference: string): ProviderResult {
    ProviderResult(AttemptSuccess, Some(providerReference), None, None, false, None)
  }

  function FailureResult(errorCode: string, errorMessage: string): ProviderResult {
    ProviderResult(AttemptFailure, None, Some(errorCode), Some(errorMessage), false, None)
  }

  function TimeoutResult(): ProviderResult {
    ProviderResult(AttemptTimeout, None, Some("TIMEOUT"), Some("Provider did not respond in time"), false, None)
  }

  function Requires3dsResult(threeDSUrl: string): ProviderResult {
    ProviderResult(AttemptRequires3ds, None, None, None, true, Some(threeDSUrl))
  }

  /**
   * What every factory-built result satisfies: the 3-D Secure flag is set
   * exactly for REQUIRES_3DS, a reference is present exactly on success, and an
   * error code is present exactly on failure and timeout.
   */
  predicate WellFormed(r: ProviderResult) {
    && (r.requires3DS <==> r.status == AttemptRequires3ds)
    && (r.threeDSUrl.Some? <==> r.status == AttemptRequires3ds)
    && (r.providerReference.Some? <==> r.status == AttemptSuccess)
    && (r.errorCode.Some? <==> r.status in {AttemptFailure, AttemptTimeout})
  }

  lemma FactoriesWellFormed(reference: string, code: string, message: string, url: string)
    ensures WellFormed(SuccessResult(reference)) && SuccessResult(reference).status == AttemptSuccess
    ensures WellFormed(FailureResult(code, message)) && FailureResult(code, message).status == AttemptFailure
    ensures WellFormed(TimeoutResult()) && TimeoutResult().errorCode == Some("TIMEOUT")
    ensures WellFormed(Requires3dsResult(url)) && Requires3dsResult(url).threeDSUrl == Some(url)
  {
  }

  datatype HealthStatus = Healthy | Degraded | Unhealthy

  /** What `healthCheck()` did when routing asked: reported a status, or threw. */
  datatype HealthCheck = Reports(status: HealthStatus) | CheckThrows

  /** A registered adapter, by its provider name, with its health as observed by one routing call. */
  datatype AdapterEntry = AdapterEntry(name: string, health: HealthCheck)

  /**
   * The provider registry keys adapters by `providerName()`; a duplicate name
   * aborts start-up, so the names of a running registry are distinct.
   */
  predicate UniqueNames(registry: seq<AdapterEntry>) {
    forall i, j | 0 <= i < j < |registry| :: registry[i].name != registry[j].name
  }

  /** `providerAdapters.get(name)`. */
  function LookupAdapter(registry: seq<AdapterEntry>, name: string): (r: Option<AdapterEntry>)
    ensures r.Some? ==> r.value in registry && r.value.name == name
    ensures r.None? <==> forall a | a in registry :: a.name != name
  {
    if registry == [] then None
    else if registry[0].name == name then Some(registry[0])
    else LookupAdapter(registry[1..], name)
  }
}
