/**
 * The demo storefront's card flow: a test card is checked against the demo
 * card table, a 3-D Secure session is opened, and a successful challenge
 * marks the payment CAPTURED directly (bypassing the orchestrator) with a
 * commission computed from the card's bank rate.
 */
module Demo {
  import opened Common
  import opened Domain
  import opened Sorting
  import opened Repositories
  import opened ThreeDs

  /** 1.99%, in hundredths of a percent: the rate when no demo card matches the BIN. */
  const DefaultCommissionRate: int := 199
  const DemoProviderName: string := "MOCK_PROVIDER"
  const UnknownBank: string := "Unknown"
  const ThreeDsRequiredMessage: string := "3D Secure doğrulaması gerekli"
  const InvalidCardMessage: string := "Kart bulunamadı. Test kartlarından birini kullanın."
  const InvalidCvvMessage: string := "CVV hatalı"
  const AlreadyProcessedMessage: string := "Payment already processed"

  // ---------------------------------------------------------------------------
  // Card numbers
  // ---------------------------------------------------------------------------

  /** `maskCardNumber`: short or absent numbers are shown as they are; longer ones keep the first six and last four. */
  function MaskCardNumber(cardNumber: Option<string>): (r: Option<string>)
    ensures cardNumber.None? ==> r.None?
    ensures cardNumber.Some? && |cardNumber.value| < 10 ==> r == cardNumber
    ensures cardNumber.Some? && |cardNumber.value| >= 10 ==>
      var n := cardNumber.value;
      && r.Some? && |r.value| == 16
      && r.value[..6] == n[..6]
      && (forall i | 6 <= i < 12 :: r.value[i] == '*')
      && r.value[12..] == n[|n| - 4..]
  {
    match cardNumber
    case None => None
    case Some(n) =>
      if |n| < 10 then cardNumber
      else Some(n[..6] + "******" + n[|n| - 4..])
  }

  /** Masking an already masked number changes nothing. */
  lemma {:induction false} MaskCardNumberIdempotent(cardNumber: Option<string>)
    ensures MaskCardNumber(MaskCardNumber(cardNumber)) == MaskCardNumber(cardNumber)
  {
    if cardNumber.Some? && |cardNumber.value| >= 10 {
      var n := cardNumber.value;
      var m := n[..6] + "******" + n[|n| - 4..];
      assert MaskCardNumber(cardNumber) == Some(m);
      assert m[..6] == n[..6];
      assert m[|m| - 4..] == n[|n| - 4..];
    }
  }

  /** Two long numbers that agree on their first six and last four digits mask to the same text. */
  lemma MaskHidesMiddleDigits(a: string, b: string)
    requires |a| >= 10 && |b| >= 10
    requires a[..6] == b[..6] && a[|a| - 4..] == b[|b| - 4..]
    ensures MaskCardNumber(Some(a)) == MaskCardNumber(Some(b))
  {
  }

  /** `replaceAll("\\s", "")`: the text with every whitespace character removed, the rest in order. */
  function StripWhitespace(s: string): (r: string)
    ensures |r| <= |s|
    ensures forall i | 0 <= i < |r| :: !IsRegexSpace(r[i])
    ensures forall c :: c in r <==> c in s && !IsRegexSpace(c)
    ensures (forall i | 0 <= i < |s| :: !IsRegexSpace(s[i])) ==> r == s
  {
    if s == [] then []
    else
      var rest := StripWhitespace(s[1..]);
      assert forall c :: c in s <==> c == s[0] || c in s[1..];
      if IsRegexSpace(s[0]) then rest else [s[0]] + rest
  }

  /** Stripping is idempotent: a cleaned number is its own cleaned form. */
  lemma StripWhitespaceIdempotent(s: string)
    ensures StripWhitespace(StripWhitespace(s)) == StripWhitespace(s)
  {
  }

  // ---------------------------------------------------------------------------
  // The demo card table
  // ---------------------------------------------------------------------------

  /** The table's unique key on the card number. */
  predicate UniqueCardNumbers(cards: seq<TestCard>) {
    forall i, j | 0 <= i < j < |cards| :: cards[i].cardNumber != cards[j].cardNumber
  }

  /** `findByCardNumber(number)`. */
  function FindByCardNumber(cards: seq<TestCard>, cardNumber: string): (r: Option<TestCard>)
    ensures r.Some? ==> r.value in cards && r.value.cardNumber == cardNumber
    ensures r.None? <==> forall c | c in cards :: c.cardNumber != cardNumber
    ensures UniqueCardNumbers(cards) ==> forall c | c in cards && c.cardNumber == cardNumber :: r == Some(c)
  {
    if cards == [] then None
    else if cards[0].cardNumber == cardNumber then
      assert UniqueCardNumbers(cards) ==> forall c | c in cards[1..] :: c.cardNumber != cardNumber by {
        forall c | c in cards[1..] && UniqueCardNumbers(cards)
          ensures c.cardNumber != cardNumber
        {
          var k :| 0 <= k < |cards[1..]| && cards[1..][k] == c;
          assert cards[k + 1] == c;
        }
      }
      Some(cards[0])
    else
      assert UniqueCardNumbers(cards) ==> UniqueCardNumbers(cards[1..]) by {
        if UniqueCardNumbers(cards) {
          forall i, j | 0 <= i < j < |cards[1..]|
            ensures cards[1..][i].cardNumber != cards[1..][j].cardNumber
          {
            assert cards[1..][i] == cards[i + 1] && cards[1..][j] == cards[j + 1];
          }
        }
      }
      FindByCardNumber(cards[1..], cardNumber)
  }

  /** The rows whose BIN prefix is `binPrefix`, in table order. */
  function CardsWithBin(cards: seq<TestCard>, binPrefix: string): (r: seq<TestCard>)
    ensures |r| <= |cards|
    ensures forall c :: c in r <==> c in cards && c.binPrefix == binPrefix
  {
    if cards == [] then []
    else
      var rest := CardsWithBin(cards[1..], binPrefix);
      assert forall c :: c in cards <==> c == cards[0] || c in cards[1..];
      if cards[0].binPrefix == binPrefix then [cards[0]] + rest else rest
  }

  /**
   * `findByBinPrefix(bin)`, a single-result query: no BIN (the query asks for a
   * null prefix, which no row has) or no matching row gives nothing; two or
   * more matching rows raise an incorrect-result-size error.
   */
  function FindByBinPrefix(cards: seq<TestCard>, binPrefix: Option<string>): (r: Result<Option<TestCard>, Fault>)
    ensures binPrefix.None? ==> r == Ok(None)
    ensures binPrefix.Some? ==> (r == Ok(None) <==> forall c | c in cards :: c.binPrefix != binPrefix.value)
    ensures r.Ok? && r.value.Some? ==>
      && binPrefix.Some? && r.value.value in cards && r.value.value.binPrefix == binPrefix.value
      && forall c | c in cards && c.binPrefix == binPrefix.value :: c == r.value.value
    ensures r.Err? ==> r.error == Unexpected(IncorrectResultSize) && binPrefix.Some? && |CardsWithBin(cards, binPrefix.value)| >= 2
  {
    match binPrefix
    case None => Ok(None)
    case Some(bin) =>
      var matches := CardsWithBin(cards, bin);
      if |matches| == 0 then
        Ok(None)
      else if |matches| == 1 then
        assert matches[0] in matches;
        Ok(Some(matches[0]))
      else
        assert matches[0] in matches;
        Err(Unexpected(IncorrectResultSize))
  }

  // ---------------------------------------------------------------------------
  // Commission arithmetic
  // ---------------------------------------------------------------------------

  /**
   * `x / 10000` rounded to the nearest integer, halves away from zero
   * (the HALF_UP rounding mode).
   */
  function RoundHalfUp(x: int): (c: int)
    ensures x >= 0 ==> -5000 < c * 10000 - x <= 5000
    ensures x < 0 ==> -5000 <= c * 10000 - x < 5000
    ensures x >= 0 ==> c >= 0
  {
    if x >= 0 then (x + 5000) / 10000 else -((-x + 5000) / 10000)
  }

  /**
   * `amount × rate / 100` at scale 2, HALF_UP. With the amount in cents and
   * the rate in hundredths of a percent, the exact commission in cents is
   * `amount × rate / 10000`.
   */
  function Commission(amount: Money, rate: int): (c: Money)
    ensures amount * rate >= 0 ==> -5000 < c * 10000 - amount * rate <= 5000
    ensures amount * rate < 0 ==> -5000 <= c * 10000 - amount * rate < 5000
  {
    RoundHalfUp(amount * rate)
  }

  /** A rate between 0% and 100% takes a commission between nothing and the whole amount. */
  lemma {:induction false} CommissionWithinAmount(amount: Money, rate: int)
    requires amount >= 0 && 0 <= rate <= 10000
    ensures 0 <= Commission(amount, rate) <= amount
    ensures 0 <= amount - Commission(amount, rate) <= amount
  {
    RateProductBounds(amount, rate);
    var x := amount * rate;
    var c := Commission(amount, rate);
    assert c * 10000 <= x + 5000 < (amount + 1) * 10000;
    assert c * 10000 > -10000;
  }

  /** With a rate of at most 100%, the scaled product lies between zero and the scaled amount. */
  lemma RateProductBounds(amount: Money, rate: int)
    requires amount >= 0 && 0 <= rate <= 10000
    ensures 0 <= amount * rate <= amount * 10000
  {
    assert amount * (10000 - rate) >= 0;
  }

  /** The commission never decreases when the amount grows at a fixed non-negative rate. */
  lemma {:induction false} CommissionMonotone(a: Money, b: Money, rate: int)
    requires 0 <= a <= b && rate >= 0
    ensures Commission(a, rate) <= Commission(b, rate)
  {
    assert a * rate <= b * rate by {
      assert (b - a) * rate >= 0;
    }
    assert 0 <= a * rate;
  }

  /** The rate charged for a BIN lookup's answer. */
  function RateFor(card: Option<TestCard>): int {
    if card.Some? then card.value.commissionRate else DefaultCommissionRate
  }

  /**
   * The payment after a successful demo challenge: CAPTURED straight away,
   * with the card bank as provider (the mock provider when no card matched),
   * the rate charged, the HALF_UP commission and the rest as net amount.
   */
  function DemoCaptured(p: Payment, card: Option<TestCard>, referenceCode: string): (q: Payment)
    ensures q.status == Captured
    ensures q.providerReference == Some("DEMO-" + referenceCode)
    ensures q.commissionRate == Some(RateFor(card))
    ensures card.None? ==> q.commissionRate == Some(DefaultCommissionRate) && q.providerName == Some(DemoProviderName)
    ensures card.Some? ==> q.providerName == Some(card.value.bankName)
    ensures q.commissionAmount.Some? && q.netAmount.Some?
    ensures q.commissionAmount.value + q.netAmount.value == p.amount
    ensures p.amount * RateFor(card) >= 0 ==> -5000 < q.commissionAmount.value * 10000 - p.amount * RateFor(card) <= 5000
    ensures q.(status := p.status, providerReference := p.providerReference, commissionRate := p.commissionRate,
               commissionAmount := p.commissionAmount, netAmount := p.netAmount, providerName := p.providerName) == p
  {
    var rate := RateFor(card);
    var commission := Commission(p.amount, rate);
    p.(status := Captured,
       providerReference := Some("DEMO-" + referenceCode),
       commissionRate := Some(rate),
       commissionAmount := Some(commission),
       netAmount := Some(p.amount - commission),
       providerName := Some(if card.Some? then card.value.bankName else DemoProviderName))
  }

  /** The BIN and last four digits the card flow writes on the payment. */
  function WithCard(p: Payment, cleanNumber: string): Payment
    requires |cleanNumber| >= 6
  {
    p.(cardBin := Some(cleanNumber[..6]), cardLastFour := Some(cleanNumber[|cleanNumber| - 4..]))
  }

  // ---------------------------------------------------------------------------
  // The card payment checks
  // ---------------------------------------------------------------------------

  /**
   * The checks of `processPayment`, in their order: the card number is cut to
   * six characters for the log line first (a shorter number fails there), then
   * the payment must exist and be CREATED, the number without whitespace must
   * be a demo card, the CVV must match, and the card number must be long
   * enough to yield a BIN.
   */
  function CheckCard(rows: seq<Payment>, cards: seq<TestCard>, paymentId: Uuid, cardNumber: string, cvv: string)
    : (r: Result<TestCard, Fault>)
    ensures r.Ok? ==>
      && |cardNumber| >= 6 && paymentId < |rows| && rows[paymentId].status == Created
      && r.value in cards && r.value.cardNumber == StripWhitespace(cardNumber)
      && r.value.cvv == cvv && |r.value.cardNumber| >= 6
    ensures |cardNumber| < 6 ==> r == Err(Unexpected(IndexOutOfBounds))
    ensures |cardNumber| >= 6 && paymentId >= |rows| ==> r == Err(PaymentNotFound(paymentId))
    ensures |cardNumber| >= 6 && paymentId < |rows| && rows[paymentId].status != Created ==>
      r == Err(PaymentError("INVALID_STATE", AlreadyProcessedMessage))
    ensures |cardNumber| >= 6 && paymentId < |rows| && rows[paymentId].status == Created &&
            (forall c | c in cards :: c.cardNumber != StripWhitespace(cardNumber)) ==>
      r == Err(PaymentError("INVALID_CARD", InvalidCardMessage))
    ensures r == Err(PaymentError("INVALID_CVV", InvalidCvvMessage)) ==>
      exists c | c in cards :: c.cardNumber == StripWhitespace(cardNumber) && c.cvv != cvv
    ensures UniqueCardNumbers(cards) && |cardNumber| >= 6 && paymentId < |rows| && rows[paymentId].status == Created &&
            |StripWhitespace(cardNumber)| >= 6 &&
            (exists c | c in cards :: c.cardNumber == StripWhitespace(cardNumber) && c.cvv == cvv) ==>
      r.Ok?
    ensures UniqueCardNumbers(cards) && |cardNumber| >= 6 && paymentId < |rows| && rows[paymentId].status == Created &&
            (exists c | c in cards :: c.cardNumber == StripWhitespace(cardNumber) && c.cvv != cvv) ==>
      r == Err(PaymentError("INVALID_CVV", InvalidCvvMessage))
  {
    if |cardNumber| < 6 then Err(Unexpected(IndexOutOfBounds))
    else if paymentId >= |rows| then Err(PaymentNotFound(paymentId))
    else if rows[paymentId].status != Created then Err(PaymentError("INVALID_STATE", AlreadyProcessedMessage))
    else
      var clean := StripWhitespace(cardNumber);
      match FindByCardNumber(cards, clean)
      case None => Err(PaymentError("INVALID_CARD", InvalidCardMessage))
      case Some(card) =>
        if card.cvv != cvv then Err(PaymentError("INVALID_CVV", InvalidCvvMessage))
        else if |clean| < 6 then Err(Unexpected(IndexOutOfBounds))
        else Ok(card)
  }

  /** The answer of the card step. */
  datatype PaymentResult = PaymentResult(
    proceed: bool, threeDsSessionId: Option<Uuid>, message: Option<string>, status: string, bankName: Option<string>)

  /** The answer of the challenge step. */
  datatype ThreeDsResult = ThreeDsResult(success: bool, message: string, code: string, providerReference: Option<string>)

  /** The demo endpoints over the shared payment and attempt stores and the 3DS service. */
  class DemoController {
    const payments: PaymentRepository
    const attempts: PaymentAttemptRepository
    const testCards: seq<TestCard>
    const threeDs: ThreeDsService

    constructor(payments: PaymentRepository, attempts: PaymentAttemptRepository, testCards: seq<TestCard>,
                threeDs: ThreeDsService)
      ensures this.payments == payments && this.attempts == attempts
      ensures this.testCards == testCards && this.threeDs == threeDs
    {
      this.payments := payments;
      this.attempts := attempts;
      this.testCards := testCards;
      this.threeDs := threeDs;
    }

    /** The 3DS service works on the same payment store, and every store is well formed. */
    predicate Valid()
      reads this, payments, attempts, threeDs.sessionRepository, threeDs.sessionRepository.sessions
    {
      && threeDs.paymentRepository == payments
      && payments.Valid() && attempts.Valid() && threeDs.sessionRepository.Valid()
      && UniqueCardNumbers(testCards)
    }

    /**
     * `processPayment(paymentId, card)`: the checks of `CheckCard`; a card
     * marked to fail turns the payment FAILED and logs one failed AUTHORIZE
     * attempt; any other card opens (or reuses) the payment's 3DS session and
     * leaves the payment CREATED awaiting the challenge. Both outcomes store
     * the card's BIN and last four digits. `latencyMs` is the random latency
     * the attempt row records.
     */
    method ProcessPayment(paymentId: Uuid, cardNumber: string, cvv: string, latencyMs: int, now: Instant)
      returns (r: Result<PaymentResult, Fault>)
      requires Valid()
      requires 100 <= latencyMs < 300
      modifies payments, attempts, threeDs.sessionRepository
      ensures Valid()
      ensures r.Err? <==> CheckCard(old(payments.rows), testCards, paymentId, cardNumber, cvv).Err?
      ensures r.Err? ==>
        && r.error == CheckCard(old(payments.rows), testCards, paymentId, cardNumber, cvv).error
        && unchanged(payments, attempts, threeDs.sessionRepository)
      ensures r.Ok? ==>
        var card := CheckCard(old(payments.rows), testCards, paymentId, cardNumber, cvv).value;
        var p := old(payments.rows[paymentId]);
        && (card.shouldFail ==>
              && r.value == PaymentResult(false, None, card.failReason, "FAILED", None)
              && payments.rows == old(payments.rows)[paymentId := WithCard(p, card.cardNumber).(status := Failed)]
              && attempts.rows == old(attempts.rows) +
                   [Attempt(|old(attempts.rows)|, paymentId, card.bankName, OperationType.Authorize, AttemptFailure,
                            None, card.failReason, None, latencyMs, now)]
              && unchanged(threeDs.sessionRepository))
        && (!card.shouldFail ==>
              var isNew := old(threeDs.sessionRepository.FindByPaymentId(paymentId)).None?;
              var session := threeDs.sessionRepository.FindByPaymentId(paymentId);
              && session.Some?
              && r.value == PaymentResult(true, session.value.id, Some(ThreeDsRequiredMessage), "REQUIRES_3DS",
                                          Some(card.bankName))
              && (isNew ==> session.value.id == Some(|old(threeDs.sessionRepository.sessions)|) &&
                            session.value.status == "PENDING" && session.value.attempts == 0)
              && payments.rows == old(payments.rows)[paymentId :=
                   WithCard(if isNew then p.(requires3ds := true, threeDsSessionId := session.value.id) else p,
                            card.cardNumber)]
              && payments.rows[paymentId].status == Created
              && attempts.rows == old(attempts.rows))
    {
      var check := CheckCard(payments.rows, testCards, paymentId, cardNumber, cvv);
      if check.Err? {
        return Err(check.error);
      }
      var card := check.value;
      var payment := payments.rows[paymentId];
      if card.shouldFail {
        payments.Update(WithCard(payment, card.cardNumber).(status := Failed));
        attempts.Add(Attempt(|attempts.rows|, paymentId, card.bankName, OperationType.Authorize, AttemptFailure,
                             None, card.failReason, None, latencyMs, now));
        return Ok(PaymentResult(false, None, card.failReason, "FAILED", None));
      }
      var session := threeDs.CreateSession(paymentId, now);
      // The payment object the 3DS service updated is the one saved here, so
      // both sets of fields reach the store.
      var current := payments.rows[paymentId];
      payments.Update(WithCard(current, card.cardNumber));
      r := Ok(PaymentResult(true, session.value.id, Some(ThreeDsRequiredMessage), "REQUIRES_3DS", Some(card.bankName)));
    }

    /**
     * `verify3ds(paymentId, otp)`: the challenge answer from the 3DS service
     * decides. A failed challenge changes no payment and no attempt. A
     * successful one captures the payment directly (`DemoCaptured`, with the
     * rate of the demo card owning the payment's BIN) and logs one successful
     * AUTHORIZE attempt. `referenceCode` stands for the eight random
     * characters of the provider reference, `latencyMs` for the random latency.
     */
    method Verify3ds(paymentId: Uuid, otpCode: string, referenceCode: string, latencyMs: int, now: Instant)
      returns (r: Result<ThreeDsResult, Fault>)
      requires Valid()
      requires 100 <= latencyMs < 300
      modifies payments, attempts
      modifies set s | s in threeDs.sessionRepository.sessions && s.paymentId == paymentId
      ensures Valid()
      ensures forall t | t in threeDs.sessionRepository.sessions &&
                         Some(t) != threeDs.sessionRepository.FindByPaymentId(paymentId) :: unchanged(t)
      ensures threeDs.sessionRepository.FindByPaymentId(paymentId).None? ==>
        r == Err(PaymentError("3DS_SESSION_NOT_FOUND", "3DS session not found")) && unchanged(payments, attempts)
      ensures threeDs.sessionRepository.FindByPaymentId(paymentId).Some? ==>
        var s := threeDs.sessionRepository.FindByPaymentId(paymentId).value;
        var outcome := VerifyOutcome(old(s.State()), old(s.IsExpired(now)), otpCode, now);
        && s.State() == outcome.1
        && s.id == old(s.id) && s.otpCode == old(s.otpCode)
        && s.expiresAt == old(s.expiresAt) && s.createdAt == old(s.createdAt)
        && (!outcome.0.success ==>
              r == Ok(ThreeDsResult(false, outcome.0.message, outcome.0.code, None)) && unchanged(payments, attempts))
        && (outcome.0.success && paymentId >= |old(payments.rows)| ==>
              r == Err(PaymentNotFound(paymentId)) && unchanged(payments, attempts))
        && (outcome.0.success && paymentId < |old(payments.rows)| ==>
              var p := old(payments.rows[paymentId]);
              var lookup := FindByBinPrefix(testCards, p.cardBin);
              && (lookup.Err? ==> r == Err(lookup.error) && unchanged(payments, attempts))
              && (lookup.Ok? ==>
                    && payments.rows == old(payments.rows)[paymentId := DemoCaptured(p, lookup.value, referenceCode)]
                    && attempts.rows == old(attempts.rows) +
                         [Attempt(|old(attempts.rows)|, paymentId,
                                  if lookup.value.Some? then lookup.value.value.bankName else UnknownBank,
                                  OperationType.Authorize, AttemptSuccess, None, None, None, latencyMs, now)]
                    && r == Ok(ThreeDsResult(true, outcome.0.message, "SUCCESS", Some("DEMO-" + referenceCode)))))
    {
      var verified := threeDs.Verify(paymentId, otpCode, now);
      if verified.Err? {
        return Err(verified.error);
      }
      var answer := verified.value;
      if !answer.success {
        return Ok(ThreeDsResult(false, answer.message, answer.code, None));
      }
      if paymentId >= |payments.rows| {
        return Err(PaymentNotFound(paymentId));
      }
      var payment := payments.rows[paymentId];
      var lookup := FindByBinPrefix(testCards, payment.cardBin);
      if lookup.Err? {
        return Err(lookup.error);
      }
      var card := lookup.value;
      payments.Update(DemoCaptured(payment, card, referenceCode));
      var bankName := if card.Some? then card.value.bankName else UnknownBank;
      attempts.Add(Attempt(|attempts.rows|, paymentId, bankName, OperationType.Authorize, AttemptSuccess,
                           None, None, None, latencyMs, now));
      r := Ok(ThreeDsResult(true, answer.message, "SUCCESS", Some("DEMO-" + referenceCode)));
    }

    /** `listPayments`: every stored payment once, newest first. */
    function ListPayments(): (r: seq<Payment>)
      reads payments
      ensures multiset(r) == multiset(payments.rows)
      ensures forall i, j | 0 <= i < j < |r| :: r[i].createdAt >= r[j].createdAt
    {
      SortBy(payments.rows, PaymentNewestKey)
    }
  }

  function PaymentNewestKey(p: Payment): int {
    -p.createdAt
  }
}
