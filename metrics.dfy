/**
 * The dashboard's integer metrics: payment counts by outcome and by status,
 * attempt counts per provider, and the largest attempt latency.
 */
module Metrics {
  import opened Common
  import opened Domain

  // ---------------------------------------------------------------------------
  // Payment counts
  // ---------------------------------------------------------------------------

  /** Number of payments in status `status`. */
  function CountStatus(payments: seq<Payment>, status: PaymentStatus): (n: nat)
    ensures n <= |payments|
    ensures n > 0 <==> exists p | p in payments :: p.status == status
  {
    if payments == [] then 0
    else
      assert forall p :: p in payments <==> p == payments[0] || p in payments[1..];
      (if payments[0].status == status then 1 else 0) + CountStatus(payments[1..], status)
  }

  /** A payment that has been paid: captured, or captured and then (partly) refunded. */
  predicate IsSuccessful(status: PaymentStatus) {
    status == Captured || status == Refunded || status == PartiallyRefunded
  }

  /** Number of successful payments. */
  function CountSuccessful(payments: seq<Payment>): (n: nat)
    ensures n <= |payments|
  {
    if payments == [] then 0
    else (if IsSuccessful(payments[0].status) then 1 else 0) + CountSuccessful(payments[1..])
  }

  /** The successful count is the sum of the CAPTURED, REFUNDED and PARTIALLY_REFUNDED counts. */
  lemma {:induction false} SuccessfulIsSumOfStatuses(payments: seq<Payment>)
    ensures CountSuccessful(payments) ==
      CountStatus(payments, Captured) + CountStatus(payments, Refunded) + CountStatus(payments, PartiallyRefunded)
  {
    if payments != [] {
      SuccessfulIsSumOfStatuses(payments[1..]);
    }
  }

  /** Successful and failed payments are disjoint, so together they never exceed the total. */
  lemma SuccessfulAndFailedWithinTotal(payments: seq<Payment>)
    ensures CountSuccessful(payments) + CountStatus(payments, Failed) <= |payments|
  {
    SuccessfulIsSumOfStatuses(payments);
    StatusCountsSumToTotal(payments);
  }

  /** The counts of the statuses in `statuses`, added up. */
  function SumCounts(payments: seq<Payment>, statuses: seq<PaymentStatus>): nat {
    if statuses == [] then 0 else CountStatus(payments, statuses[0]) + SumCounts(payments, statuses[1..])
  }

  /** Number of payments whose status is one of `statuses`. */
  function CountIn(payments: seq<Payment>, statuses: seq<PaymentStatus>): nat {
    if payments == [] then 0
    else (if payments[0].status in statuses then 1 else 0) + CountIn(payments[1..], statuses)
  }

  /** Summing per-status counts over distinct statuses counts each payment with one of them exactly once. */
  lemma {:induction false} SumCountsIsCountIn(payments: seq<Payment>, statuses: seq<PaymentStatus>)
    requires forall i, j | 0 <= i < j < |statuses| :: statuses[i] != statuses[j]
    ensures SumCounts(payments, statuses) == CountIn(payments, statuses)
    decreases |statuses|
  {
    if statuses != [] {
      var rest := statuses[1..];
      assert forall i, j | 0 <= i < j < |rest| :: rest[i] != rest[j] by {
        forall i, j | 0 <= i < j < |rest| ensures rest[i] != rest[j] {
          assert rest[i] == statuses[i + 1] && rest[j] == statuses[j + 1];
        }
      }
      SumCountsIsCountIn(payments, rest);
      assert statuses[0] !in rest by {
        forall k | 0 <= k < |rest| ensures rest[k] != statuses[0] {
          assert rest[k] == statuses[k + 1];
        }
      }
      CountInSplit(payments, statuses[0], rest);
      assert statuses == [statuses[0]] + rest;
    } else {
      CountInNone(payments);
    }
  }

  /** No payment has a status from an empty list. */
  lemma {:induction false} CountInNone(payments: seq<Payment>)
    ensures CountIn(payments, []) == 0
  {
    if payments != [] {
      CountInNone(payments[1..]);
    }
  }

  /** Counting over `[s] + rest`, with `s` not in `rest`, is counting `s` and then `rest`. */
  lemma {:induction false} CountInSplit(payments: seq<Payment>, s: PaymentStatus, rest: seq<PaymentStatus>)
    requires s !in rest
    ensures CountIn(payments, [s] + rest) == CountStatus(payments, s) + CountIn(payments, rest)
  {
    if payments != [] {
      CountInSplit(payments[1..], s, rest);
    }
  }

  /** The status list names every status. */
  lemma AllStatusesListed()
    ensures forall s: PaymentStatus :: s in AllPaymentStatuses
  {
    forall s: PaymentStatus ensures s in AllPaymentStatuses {
      match s
      case Created => assert AllPaymentStatuses[0] == s;
      case Authorized => assert AllPaymentStatuses[1] == s;
      case Captured => assert AllPaymentStatuses[2] == s;
      case Refunded => assert AllPaymentStatuses[3] == s;
      case PartiallyRefunded => assert AllPaymentStatuses[4] == s;
      case Failed => assert AllPaymentStatuses[5] == s;
      case Cancelled => assert AllPaymentStatuses[6] == s;
    }
  }

  /** Every payment has one of the seven statuses. */
  lemma {:induction false} CountInAllStatuses(payments: seq<Payment>)
    ensures CountIn(payments, AllPaymentStatuses) == |payments|
  {
    if payments != [] {
      AllStatusesListed();
      CountInAllStatuses(payments[1..]);
    }
  }

  /** No status is listed twice. */
  lemma AllStatusesDistinct()
    ensures forall i, j | 0 <= i < j < |AllPaymentStatuses| :: AllPaymentStatuses[i] != AllPaymentStatuses[j]
  {
    forall i, j | 0 <= i < j < |AllPaymentStatuses|
      ensures AllPaymentStatuses[i] != AllPaymentStatuses[j]
    {
    }
  }

  /** The per-status counts add up to the number of payments. */
  lemma StatusCountsSumToTotal(payments: seq<Payment>)
    ensures SumCounts(payments, AllPaymentStatuses) == |payments|
  {
    AllStatusesDistinct();
    SumCountsIsCountIn(payments, AllPaymentStatuses);
    CountInAllStatuses(payments);
  }

  /**
   * The status breakdown: one entry per status that some payment has (the
   * map is keyed by the status, whose name is the reported key), holding
   * that status's count.
   */
  function PaymentsByStatus(payments: seq<Payment>): (m: map<PaymentStatus, nat>)
    ensures forall s :: s in m <==> exists p | p in payments :: p.status == s
    ensures forall s | s in m :: m[s] == CountStatus(payments, s) && m[s] > 0
  {
    AllStatusesListed();
    map s | s in AllPaymentStatuses && CountStatus(payments, s) > 0 :: CountStatus(payments, s)
  }

  // ---------------------------------------------------------------------------
  // Attempt counts
  // ---------------------------------------------------------------------------

  /** The per-provider counters of the summary (the rates and averages are left out). */
  datatype ProviderMetrics = ProviderMetrics(totalAttempts: nat, successCount: nat, failureCount: nat, timeoutCount: nat)

  /** Number of attempts sent to `provider`. */
  function CountProvider(attempts: seq<Attempt>, provider: string): (n: nat)
    ensures n <= |attempts|
    ensures n > 0 <==> exists a | a in attempts :: a.provider == provider
  {
    if attempts == [] then 0
    else
      assert forall a :: a in attempts <==> a == attempts[0] || a in attempts[1..];
      (if attempts[0].provider == provider then 1 else 0) + CountProvider(attempts[1..], provider)
  }

  /** Number of attempts sent to `provider` that ended in `status`. */
  function CountProviderStatus(attempts: seq<Attempt>, provider: string, status: AttemptStatus): nat {
    if attempts == [] then 0
    else
      (if attempts[0].provider == provider && attempts[0].status == status then 1 else 0)
      + CountProviderStatus(attempts[1..], provider, status)
  }

  /** A provider's counters. */
  function MetricsFor(attempts: seq<Attempt>, provider: string): ProviderMetrics {
    ProviderMetrics(CountProvider(attempts, provider),
                    CountProviderStatus(attempts, provider, AttemptSuccess),
                    CountProviderStatus(attempts, provider, AttemptFailure),
                    CountProviderStatus(attempts, provider, AttemptTimeout))
  }

  /**
   * A provider's attempts split into the five outcomes, so success, failure
   * and timeout together never exceed the total: the pending and 3DS ones
   * make up the difference.
   */
  lemma {:induction false} OutcomesPartitionAttempts(attempts: seq<Attempt>, provider: string)
    ensures CountProviderStatus(attempts, provider, AttemptSuccess)
          + CountProviderStatus(attempts, provider, AttemptFailure)
          + CountProviderStatus(attempts, provider, AttemptTimeout)
          + CountProviderStatus(attempts, provider, AttemptRequires3ds)
          + CountProviderStatus(attempts, provider, AttemptPending)
         == CountProvider(attempts, provider)
  {
    if attempts != [] {
      OutcomesPartitionAttempts(attempts[1..], provider);
    }
  }

  lemma CountedOutcomesWithinTotal(attempts: seq<Attempt>, provider: string)
    ensures var m := MetricsFor(attempts, provider);
      m.successCount + m.failureCount + m.timeoutCount <= m.totalAttempts
  {
    OutcomesPartitionAttempts(attempts, provider);
  }

  /** The providers named by `attempts`, each once, in order of first appearance. */
  function Providers(attempts: seq<Attempt>): (r: seq<string>)
    ensures forall name :: name in r <==> exists a | a in attempts :: a.provider == name
  {
    if attempts == [] then []
    else
      var rest := Providers(attempts[..|attempts| - 1]);
      var last := attempts[|attempts| - 1];
      assert forall a :: a in attempts <==> a == last || a in attempts[..|attempts| - 1];
      if last.provider in rest then rest else rest + [last.provider]
  }

  /**
   * `calculateProviderMetrics`: the attempts grouped by provider, one entry
   * per provider that has an attempt, holding that provider's counters.
   */
  method CalculateProviderMetrics(attempts: seq<Attempt>) returns (result: map<string, ProviderMetrics>)
    ensures forall name :: name in result <==> exists a | a in attempts :: a.provider == name
    ensures forall name | name in result :: result[name] == MetricsFor(attempts, name)
    ensures forall name | name in result :: result[name].totalAttempts > 0
  {
    var providers := Providers(attempts);
    result := map[];
    var i := 0;
    while i < |providers|
      invariant 0 <= i <= |providers|
      invariant forall name :: name in result <==> name in providers[..i]
      invariant forall name | name in result :: result[name] == MetricsFor(attempts, name)
    {
      TakeOneMore(providers, i);
      var name := providers[i];
      result := result[name := MetricsFor(attempts, name)];
      i := i + 1;
    }
    assert providers[..i] == providers;
  }

  // ---------------------------------------------------------------------------
  // Latency
  // ---------------------------------------------------------------------------

  /** The largest attempt latency, 0 when there is no attempt. */
  function MaxLatency(attempts: seq<Attempt>): (m: int)
    ensures attempts == [] ==> m == 0
    ensures forall a | a in attempts :: a.latencyMs <= m
    ensures attempts != [] ==> exists a | a in attempts :: a.latencyMs == m
  {
    if attempts == [] then 0
    else if |attempts| == 1 then attempts[0].latencyMs
    else
      var rest := MaxLatency(attempts[1..]);
      assert forall a :: a in attempts <==> a == attempts[0] || a in attempts[1..];
      if attempts[0].latencyMs >= rest then attempts[0].latencyMs else rest
  }

  // ---------------------------------------------------------------------------
  // The summary
  // ---------------------------------------------------------------------------

  datatype MetricsSummary = MetricsSummary(
    totalPayments: nat,
    totalSuccessful: nat,
    totalFailed: nat,
    paymentsByStatus: map<PaymentStatus, nat>,
    providerMetrics: map<string, ProviderMetrics>,
    maxLatencyMs: int)

  /** `getSummary`'s integer fields over the stored payments and attempts. */
  method GetSummary(payments: seq<Payment>, attempts: seq<Attempt>) returns (s: MetricsSummary)
    ensures s.totalPayments == |payments|
    ensures s.totalSuccessful == CountSuccessful(payments)
    ensures s.totalFailed == CountStatus(payments, Failed)
    ensures s.totalSuccessful + s.totalFailed <= s.totalPayments
    ensures s.paymentsByStatus == PaymentsByStatus(payments)
    ensures forall name :: name in s.providerMetrics <==> exists a | a in attempts :: a.provider == name
    ensures forall name | name in s.providerMetrics :: s.providerMetrics[name] == MetricsFor(attempts, name)
    ensures s.maxLatencyMs == MaxLatency(attempts)
  {
    SuccessfulAndFailedWithinTotal(payments);
    var byProvider := CalculateProviderMetrics(attempts);
    s := MetricsSummary(|payments|, CountSuccessful(payments), CountStatus(payments, Failed),
                        PaymentsByStatus(payments), byProvider, MaxLatency(attempts));
  }
}
