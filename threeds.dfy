/**
 * The simulated 3-D Secure challenge: one session per payment, a fixed
 * one-time code, a five-minute lifetime and at most three tries.
 */
module ThreeDs {
  import opened Common
  import opened Domain
  import opened Repositories

  /** The only code the simulator accepts. */
  const ValidOtp: string := "111111"
  const MaxAttempts: int := 3
  /** Five minutes, in seconds. */
  const SessionLifetime: int := 300

  const ExpiredMessage: string := "OTP süresi doldu. Lütfen tekrar deneyin."
  const AlreadyVerifiedMessage: string := "Zaten doğrulanmış"
  const BlockedMessage: string := "Çok fazla hatalı deneme. İşlem iptal edildi."
  const VerifiedMessage: string := "Doğrulama başarılı"

  /** `String.format("Hatalı kod. Kalan deneme: %d", remaining)`. */
  function WrongCodeMessage(remaining: nat): string {
    "Hatalı kod. Kalan deneme: " + NatToString(remaining)
  }

  /** A 3DS session row, updated in place by the service. */
  class ThreeDsSessionEntity {
    var id: Option<Uuid>
    const paymentId: Uuid
    var otpCode: string
    var status: string
    var attempts: int
    var expiresAt: Option<Instant>
    var verifiedAt: Option<Instant>
    var createdAt: Option<Instant>

    /** The builder: code "111111", status PENDING and no attempts unless given otherwise. */
    constructor(id: Option<Uuid>, paymentId: Uuid, expiresAt: Option<Instant>)
      ensures this.id == id && this.paymentId == paymentId && this.expiresAt == expiresAt
      ensures otpCode == ValidOtp && status == "PENDING" && attempts == 0
      ensures verifiedAt.None? && createdAt.None?
    {
      this.id := id;
      this.paymentId := paymentId;
      this.expiresAt := expiresAt;
      otpCode := ValidOtp;
      status := "PENDING";
      attempts := 0;
      verifiedAt := None;
      createdAt := None;
    }

    /** `onCreate()` before the first insert: fills only the fields that are still empty. */
    method OnCreate(freshId: Uuid, now: Instant)
      modifies this
      ensures id == if old(id).Some? then old(id) else Some(freshId)
      ensures createdAt == if old(createdAt).Some? then old(createdAt) else Some(now)
      ensures expiresAt == if old(expiresAt).Some? then old(expiresAt) else Some(now + SessionLifetime)
      ensures otpCode == old(otpCode) && status == old(status) && attempts == old(attempts)
      ensures verifiedAt == old(verifiedAt)
    {
      if id.None? {
        id := Some(freshId);
      }
      if createdAt.None? {
        createdAt := Some(now);
      }
      if expiresAt.None? {
        expiresAt := Some(now + SessionLifetime);
      }
    }

    /** `isExpired()`: the clock is strictly past the expiry. */
    predicate IsExpired(now: Instant)
      reads this
      requires expiresAt.Some?
    {
      now > expiresAt.value
    }

    /** `isVerified()`. */
    predicate IsVerified()
      reads this
    {
      status == "VERIFIED"
    }

    /** The fields `verify` may change. */
    function State(): SessionState
      reads this
    {
      SessionState(status, attempts, verifiedAt)
    }
  }

  datatype SessionState = SessionState(status: string, attempts: int, verifiedAt: Option<Instant>)

  datatype VerifyResult = VerifyResult(success: bool, message: string, code: string)

  /**
   * What `verify` answers and leaves in the session, checked in order:
   * expiry, an earlier verification, the attempt cap, then the code, after
   * the attempt is counted. The code is compared with the fixed valid code,
   * not with the one stored in the session.
   */
  function VerifyOutcome(state: SessionState, expired: bool, otpCode: string, now: Instant)
    : (o: (VerifyResult, SessionState))
    ensures o.0.success <==>
      !expired && (state.status == "VERIFIED" || (state.attempts < MaxAttempts && otpCode == ValidOtp))
    ensures o.1.attempts == state.attempts || o.1.attempts == state.attempts + 1
    ensures o.1.attempts == state.attempts + 1 <==> !expired && state.status != "VERIFIED" && state.attempts < MaxAttempts
    ensures state.attempts <= MaxAttempts ==> o.1.attempts <= MaxAttempts
    ensures expired ==> o.1.status == "EXPIRED" && o.0.code == "EXPIRED"
  {
    if expired then
      (VerifyResult(false, ExpiredMessage, "EXPIRED"), state.(status := "EXPIRED"))
    else if state.status == "VERIFIED" then
      (VerifyResult(true, AlreadyVerifiedMessage, "ALREADY_VERIFIED"), state)
    else if state.attempts >= MaxAttempts then
      (VerifyResult(false, BlockedMessage, "MAX_ATTEMPTS"), state.(status := "BLOCKED"))
    else
      var attempts := state.attempts + 1;
      if otpCode == ValidOtp then
        (VerifyResult(true, VerifiedMessage, "SUCCESS"), state.(status := "VERIFIED", attempts := attempts, verifiedAt := Some(now)))
      else
        (VerifyResult(false, WrongCodeMessage(MaxAttempts - attempts), "INVALID_OTP"), state.(attempts := attempts))
  }

  /** One try at the challenge: whether the session has expired by then, the code typed and the clock. */
  datatype Try = Try(expired: bool, otpCode: string, now: Instant)

  /** The session after a series of tries. */
  function AfterTries(state: SessionState, tries: seq<Try>): SessionState
    decreases |tries|
  {
    if tries == [] then state
    else AfterTries(VerifyOutcome(state, tries[0].expired, tries[0].otpCode, tries[0].now).1, tries[1..])
  }

  /** However many tries are made, a session never counts more than three attempts. */
  lemma {:induction false} AttemptsStayWithinCap(state: SessionState, tries: seq<Try>)
    requires state.attempts <= MaxAttempts
    ensures AfterTries(state, tries).attempts <= MaxAttempts
    decreases |tries|
  {
    if tries != [] {
      var next := VerifyOutcome(state, tries[0].expired, tries[0].otpCode, tries[0].now).1;
      AttemptsStayWithinCap(next, tries[1..]);
    }
  }

  /** Attempts are never taken back. */
  lemma {:induction false} AttemptsNeverDecrease(state: SessionState, tries: seq<Try>)
    ensures AfterTries(state, tries).attempts >= state.attempts
    decreases |tries|
  {
    if tries != [] {
      var next := VerifyOutcome(state, tries[0].expired, tries[0].otpCode, tries[0].now).1;
      AttemptsNeverDecrease(next, tries[1..]);
    }
  }

  /**
   * A wrong code counts the attempt and reports the tries left; after three
   * wrong codes on a live session even the right code is refused and the
   * session is blocked.
   */
  lemma ThreeWrongCodesBlock(wrong1: string, wrong2: string, wrong3: string, otpCode: string, now: Instant)
    requires wrong1 != ValidOtp && wrong2 != ValidOtp && wrong3 != ValidOtp
    ensures
      var s0 := SessionState("PENDING", 0, None);
      var o1 := VerifyOutcome(s0, false, wrong1, now);
      var o2 := VerifyOutcome(o1.1, false, wrong2, now);
      var o3 := VerifyOutcome(o2.1, false, wrong3, now);
      var o4 := VerifyOutcome(o3.1, false, otpCode, now);
      && o1.0 == VerifyResult(false, WrongCodeMessage(2), "INVALID_OTP")
      && o2.0 == VerifyResult(false, WrongCodeMessage(1), "INVALID_OTP")
      && o3.0 == VerifyResult(false, WrongCodeMessage(0), "INVALID_OTP")
      && o4.0 == VerifyResult(false, BlockedMessage, "MAX_ATTEMPTS")
      && o4.1.status == "BLOCKED" && o4.1.attempts == MaxAttempts
  {
  }

  /** A verified session answers ALREADY_VERIFIED until it expires, and expiry wins even over a verification. */
  lemma VerificationHoldsUntilExpiry(state: SessionState, otpCode: string, now: Instant)
    requires state.status == "VERIFIED"
    ensures VerifyOutcome(state, false, otpCode, now) ==
      (VerifyResult(true, AlreadyVerifiedMessage, "ALREADY_VERIFIED"), state)
    ensures VerifyOutcome(state, true, otpCode, now) ==
      (VerifyResult(false, ExpiredMessage, "EXPIRED"), state.(status := "EXPIRED"))
  {
  }

  class ThreeDsSessionRepository {
    var sessions: seq<ThreeDsSessionEntity>

    constructor()
      ensures sessions == []
    {
      sessions := [];
    }

    /** Every stored session has an expiry and a non-negative attempt count. */
    predicate Valid()
      reads this, sessions
    {
      forall s | s in sessions :: s.expiresAt.Some? && s.attempts >= 0
    }

    /** `findByPaymentId(paymentId)`: the first session of the payment. */
    function FindByPaymentId(paymentId: Uuid): (r: Option<ThreeDsSessionEntity>)
      reads this
      ensures r.Some? ==> r.value in sessions && r.value.paymentId == paymentId
      ensures r.None? <==> forall s | s in sessions :: s.paymentId != paymentId
    {
      FirstOfPayment(sessions, paymentId)
    }

    /** `save(session)` of a new session: the pre-insert hook runs, then the row is stored. */
    method Insert(session: ThreeDsSessionEntity, freshId: Uuid, now: Instant)
      requires Valid() && session !in sessions && session.attempts >= 0
      modifies this, session
      ensures Valid()
      ensures sessions == old(sessions) + [session]
      ensures session.id == (if old(session.id).Some? then old(session.id) else Some(freshId))
      ensures session.createdAt == (if old(session.createdAt).Some? then old(session.createdAt) else Some(now))
      ensures session.expiresAt ==
        (if old(session.expiresAt).Some? then old(session.expiresAt) else Some(now + SessionLifetime))
      ensures session.State() == old(session.State()) && session.otpCode == old(session.otpCode)
    {
      session.OnCreate(freshId, now);
      sessions := sessions + [session];
    }
  }

  function FirstOfPayment(sessions: seq<ThreeDsSessionEntity>, paymentId: Uuid): (r: Option<ThreeDsSessionEntity>)
    ensures r.Some? ==> r.value in sessions && r.value.paymentId == paymentId
    ensures r.None? <==> forall s | s in sessions :: s.paymentId != paymentId
    ensures r.Some? ==> exists i | 0 <= i < |sessions| :: sessions[i] == r.value &&
                          forall j | 0 <= j < i :: sessions[j].paymentId != paymentId
  {
    if sessions == [] then None
    else if sessions[0].paymentId == paymentId then Some(sessions[0])
    else FirstOfPayment(sessions[1..], paymentId)
  }

  class ThreeDsService {
    const sessionRepository: ThreeDsSessionRepository
    const paymentRepository: PaymentRepository

    constructor(sessionRepository: ThreeDsSessionRepository, paymentRepository: PaymentRepository)
      ensures this.sessionRepository == sessionRepository && this.paymentRepository == paymentRepository
    {
      this.sessionRepository := sessionRepository;
      this.paymentRepository := paymentRepository;
    }

    /**
     * `createSession(paymentId)`: an unknown payment is not found; a payment
     * that already has a session gets that session back untouched; otherwise a
     * new PENDING session expiring in five minutes is stored and the payment
     * is marked as requiring 3DS under that session's id.
     */
    method CreateSession(paymentId: Uuid, now: Instant) returns (r: Result<ThreeDsSessionEntity, Fault>)
      requires sessionRepository.Valid() && paymentRepository.Valid()
      modifies sessionRepository, paymentRepository
      ensures sessionRepository.Valid() && paymentRepository.Valid()
      ensures r.Err? <==> paymentId >= |old(paymentRepository.rows)|
      ensures r.Err? ==> r.error == PaymentNotFound(paymentId)
      ensures r.Err? ==> unchanged(sessionRepository, paymentRepository)
      ensures r.Ok? ==> sessionRepository.FindByPaymentId(paymentId) == Some(r.value)
      ensures r.Ok? && old(sessionRepository.FindByPaymentId(paymentId)).Some? ==>
        r.value == old(sessionRepository.FindByPaymentId(paymentId)).value &&
        unchanged(sessionRepository, paymentRepository, r.value)
      ensures r.Ok? && old(sessionRepository.FindByPaymentId(paymentId)).None? ==>
        && fresh(r.value)
        && sessionRepository.sessions == old(sessionRepository.sessions) + [r.value]
        && r.value.paymentId == paymentId && r.value.id == Some(|old(sessionRepository.sessions)|)
        && r.value.status == "PENDING" && r.value.attempts == 0 && r.value.otpCode == ValidOtp
        && r.value.expiresAt == Some(now + SessionLifetime) && r.value.createdAt == Some(now)
        && paymentRepository.rows == old(paymentRepository.rows)[paymentId :=
             old(paymentRepository.rows)[paymentId].(requires3ds := true,
                                                     threeDsSessionId := Some(|old(sessionRepository.sessions)|))]
    {
      if paymentId >= |paymentRepository.rows| {
        return Err(PaymentNotFound(paymentId));
      }
      var payment := paymentRepository.rows[paymentId];
      var existing := sessionRepository.FindByPaymentId(paymentId);
      if existing.Some? {
        return Ok(existing.value);
      }
      var id := |sessionRepository.sessions|;
      var session := new ThreeDsSessionEntity(Some(id), paymentId, Some(now + SessionLifetime));
      sessionRepository.Insert(session, id, now);
      payment := payment.(requires3ds := true, threeDsSessionId := Some(id));
      paymentRepository.Update(payment);
      assert sessionRepository.sessions[..|sessionRepository.sessions| - 1] == old(sessionRepository.sessions);
      r := Ok(session);
    }

    /**
     * `verify(paymentId, otpCode)`: a payment without a session fails with
     * 3DS_SESSION_NOT_FOUND; otherwise the payment's session is updated in
     * place and the answer is the one `VerifyOutcome` gives.
     */
    method Verify(paymentId: Uuid, otpCode: string, now: Instant) returns (r: Result<VerifyResult, Fault>)
      requires sessionRepository.Valid()
      modifies set s | s in sessionRepository.sessions && s.paymentId == paymentId
      ensures sessionRepository.Valid()
      ensures r.Err? <==> sessionRepository.FindByPaymentId(paymentId).None?
      ensures r.Err? ==> r.error == PaymentError("3DS_SESSION_NOT_FOUND", "3DS session not found")
      ensures r.Ok? ==>
        var s := sessionRepository.FindByPaymentId(paymentId).value;
        (r.value, s.State()) == VerifyOutcome(old(s.State()), old(s.IsExpired(now)), otpCode, now)
    ensures r.Ok? ==>
        var s := sessionRepository.FindByPaymentId(paymentId).value;
        s.id == old(s.id) && s.otpCode == old(s.otpCode) && s.expiresAt == old(s.expiresAt) && s.createdAt == old(s.createdAt)
    ensures forall t | t in sessionRepository.sessions && Some(t) != sessionRepository.FindByPaymentId(paymentId) ::
        unchanged(t)
    {
      var found := sessionRepository.FindByPaymentId(paymentId);
      if found.None? {
        return Err(PaymentError("3DS_SESSION_NOT_FOUND", "3DS session not found"));
      }
      var session := found.value;
      if session.IsExpired(now) {
        session.status := "EXPIRED";
        return Ok(VerifyResult(false, ExpiredMessage, "EXPIRED"));
      }
      if session.IsVerified() {
        return Ok(VerifyResult(true, AlreadyVerifiedMessage, "ALREADY_VERIFIED"));
      }
      if session.attempts >= MaxAttempts {
        session.status := "BLOCKED";
        return Ok(VerifyResult(false, BlockedMessage, "MAX_ATTEMPTS"));
      }
      session.attempts := session.attempts + 1;
      if otpCode == ValidOtp {
        session.status := "VERIFIED";
        session.verifiedAt := Some(now);
        return Ok(VerifyResult(true, VerifiedMessage, "SUCCESS"));
      }
      r := Ok(VerifyResult(false, WrongCodeMessage(MaxAttempts - session.attempts), "INVALID_OTP"));
    }

    /** `isVerified(paymentId)`: false when the payment has no session. */
    function IsVerified(paymentId: Uuid): (b: bool)
      reads sessionRepository, sessionRepository.sessions
      ensures sessionRepository.FindByPaymentId(paymentId).None? ==> !b
      ensures b ==> exists s | s in sessionRepository.sessions :: s.paymentId == paymentId && s.status == "VERIFIED"
      ensures b <==> sessionRepository.FindByPaymentId(paymentId).Some? &&
                     sessionRepository.FindByPaymentId(paymentId).value.status == "VERIFIED"
    {
      match sessionRepository.FindByPaymentId(paymentId)
      case None => false
      case Some(s) => s.IsVerified()
    }
  }
}
