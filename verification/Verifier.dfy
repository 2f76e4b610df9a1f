/** The deterministic cancellation verifier (verifier.py). */
module Verifier {
  import opened Wrappers
  import opened Models
  import opened Outcomes

  const MAX_EVIDENCE_AGE_SECONDS: int := 30
  const MAX_VIOLATION_AGE: int := 7 * DAY

  predicate IsValidReceipt(r: ActionReceipt) {
    && !IsBlank(r.requestId)
    && (r.targetDigest.Some? ==> IsHexDigest(r.targetDigest.value))
  }

  predicate IsDigit(c: char) {
    '0' <= c <= '9'
  }

  function DigitValue(c: char): int
    requires IsDigit(c)
  {
    c as int - '0' as int
  }

  predicate IsLeapYear(year: int) {
    year % 4 == 0 && (year % 100 != 0 || year % 400 == 0)
  }

  function DaysInMonth(year: int, month: int): int {
    if month == 2 then (if IsLeapYear(year) then 29 else 28)
    else if month == 4 || month == 6 || month == 9 || month == 11 then 30
    else 31
  }

  /** A date written YYYY-MM-DD that exists in the calendar. */
  predicate IsIsoDate(s: string) {
    && |s| == 10
    && s[4] == '-' && s[7] == '-'
    && (forall i :: 0 <= i < 10 && i != 4 && i != 7 ==> IsDigit(s[i]))
    && var year := 1000 * DigitValue(s[0]) + 100 * DigitValue(s[1]) + 10 * DigitValue(s[2]) + DigitValue(s[3]);
       var month := 10 * DigitValue(s[5]) + DigitValue(s[6]);
       var day := 10 * DigitValue(s[8]) + DigitValue(s[9]);
       1 <= year && 1 <= month <= 12 && 1 <= day <= DaysInMonth(year, month)
  }

  predicate IsValidEvidence(e: Evidence) {
    && (e.freshness.Some? ==> 0 <= e.freshness.value)
    && (e.targetDigest.Some? ==> IsHexDigest(e.targetDigest.value))
    && (e.attemptId.Some? ==> !IsBlank(e.attemptId.value))
    && (e.endDate.Some? ==> IsIsoDate(e.endDate.value))
  }

  /** The context a read-back is judged in: what the caller expects it to be about. */
  datatype Expectation = Expectation(
    target: Option<Digest>, attemptId: Option<string>, owner: Option<string>, resolution: Option<string>,
    deadline: Option<int>, time: Option<int>)

  /** A charge that belongs to this owner, resolution and target, after the deadline, at most 7 days old. */
  predicate IsCorrelatedViolation(v: OutcomeViolation, x: Expectation) {
    && v.eventType == RenewalCharge
    && v.amountCents > 0
    && IsKnownCurrency(v.currency)
    && (v.source == DemoBillingReadback || v.source == IndependentBillingReadback)
    && v.evidenceId != ""
    && x.owner == Some(v.owner)
    && x.resolution == Some(v.resolution)
    && x.target == Some(v.targetDigest)
    && x.deadline.Some? && v.observedAt >= x.deadline.value
    && x.time.Some? && v.observedAt <= x.time.value && x.time.value - v.observedAt <= MAX_VIOLATION_AGE
  }

  /** Readable, well formed and at most 30 seconds old. */
  predicate IsFreshEvidence(e: Evidence) {
    && IsValidEvidence(e)
    && e.readable
    && e.freshness.Some? && e.freshness.value <= MAX_EVIDENCE_AGE_SECONDS
  }

  predicate IsAcceptedReceipt(r: ActionReceipt) {
    IsValidReceipt(r) && r.success
  }

  /** Receipt and evidence are about the expected target, and the evidence about this very attempt. */
  predicate IsCorrelatedEvidence(r: ActionReceipt, e: Evidence, x: Expectation) {
    x.target.Some? ==> r.targetDigest == x.target && e.targetDigest == x.target && e.attemptId == x.attemptId
  }

  function Open(reason: Reason, r: ActionReceipt, e: Evidence): VerificationResult {
    VerificationResult(INCONCLUSIVE, ShownAwaitingProof, reason, r, e)
  }

  function VerifyCancellation(r: ActionReceipt, e: Evidence, terminalFailure: bool,
                              violation: Option<OutcomeViolation>, x: Expectation): VerificationResult
  {
    if violation.Some? then
      if IsCorrelatedViolation(violation.value, x)
      then VerificationResult(FAIL, ShownNotCompleted, ChargedAfterDeadline, r, e)
      else Open(ViolationUncorrelated, r, e)
    else if !IsValidEvidence(e) then Open(EvidenceMalformed, r, e)
    else if !e.readable then Open(AccountUnavailable, r, e)
    else if e.freshness.None? || e.freshness.value > MAX_EVIDENCE_AGE_SECONDS then Open(EvidenceStale, r, e)
    else if !IsAcceptedReceipt(r) then Open(ReceiptUnreliable, r, e)
    else if !IsCorrelatedEvidence(r, e, x) then Open(EvidenceUncorrelated, r, e)
    else if e.autoRenew == Some(true) then
      if terminalFailure
      then VerificationResult(FAIL, ShownNotCompleted, WindowEndedStillRenewing, r, e)
      else Open(StillRenewing, r, e)
    else if e.autoRenew == Some(false) && e.endDate.Some? && e.endDate.value != ""
    then VerificationResult(PASS, ShownVerified, RenewalDisabled, r, e)
    else Open(EvidenceInsufficient, r, e)
  }

  // ----- the verdicts, said without the order in which things are checked

  /** Every part of the read-back that is there is well formed. */
  predicate IsWellFormed(e: Evidence) {
    && (e.freshness.Some? ==> e.freshness.value >= 0)
    && (e.targetDigest.Some? ==> IsHexDigest(e.targetDigest.value))
    && (e.attemptId.Some? ==> !IsBlank(e.attemptId.value))
    && (e.endDate.Some? ==> IsIsoDate(e.endDate.value))
  }

  /** Readable and at most thirty seconds old. */
  predicate IsCurrent(e: Evidence) {
    IsWellFormed(e) && e.readable && e.freshness.Some? && e.freshness.value <= 30
  }

  /** The provider reported success under a request identifier. */
  predicate ReportsSuccess(r: ActionReceipt) {
    r.success && !IsBlank(r.requestId) && (r.targetDigest.Some? ==> IsHexDigest(r.targetDigest.value))
  }

  /** Current evidence and a reported success, both about the expected target, the evidence about this very attempt. */
  predicate IsReliable(r: ActionReceipt, e: Evidence, x: Expectation) {
    && IsCurrent(e) && ReportsSuccess(r)
    && (x.target.Some? ==>
          r.targetDigest == x.target && e.targetDigest == x.target && e.attemptId == x.attemptId)
  }

  predicate IsProofOfCancellation(r: ActionReceipt, e: Evidence, x: Expectation) {
    IsReliable(r, e, x) && e.autoRenew == Some(false) && e.endDate.Some?
  }

  predicate IsProofOfRenewal(r: ActionReceipt, e: Evidence, x: Expectation) {
    IsReliable(r, e, x) && e.autoRenew == Some(true)
  }

  /** A renewal charge of the expected subscription, after its deadline and at most seven days old. */
  predicate IsLateCharge(w: OutcomeViolation, x: Expectation) {
    && x.deadline.Some? && x.time.Some?
    && x.deadline.value <= w.observedAt <= x.time.value <= w.observedAt + 7 * DAY
    && Some(w.owner) == x.owner && Some(w.resolution) == x.resolution && Some(w.targetDigest) == x.target
    && w.eventType == RenewalCharge && w.amountCents >= 1
    && (w.currency == USD || w.currency == CAD || w.currency == GBP || w.currency == EUR)
    && (w.source == DemoBillingReadback || w.source == IndependentBillingReadback)
    && |w.evidenceId| >= 1
  }

  lemma LateChargesAreCorrelated(w: OutcomeViolation, x: Expectation)
    ensures IsLateCharge(w, x) <==> IsCorrelatedViolation(w, x)
  {
  }

  /** PASS is given exactly for proof without any billing violation, whatever the provider claims. */
  lemma PassExactlyForProof(r: ActionReceipt, e: Evidence, tf: bool, v: Option<OutcomeViolation>, x: Expectation)
    ensures VerifyCancellation(r, e, tf, v, x).verdict == PASS <==> v.None? && IsProofOfCancellation(r, e, x)
  {
    assert IsIsoDate("") ==> |""| == 10;
  }

  /** FAIL is given exactly for a late charge, or for proof of renewal at the end of the window. */
  lemma FailExactlyForRefutation(r: ActionReceipt, e: Evidence, tf: bool, v: Option<OutcomeViolation>, x: Expectation)
    ensures VerifyCancellation(r, e, tf, v, x).verdict == FAIL <==>
            || (v.Some? && IsLateCharge(v.value, x))
            || (v.None? && tf && IsProofOfRenewal(r, e, x))
  {
  }

  /** The reason given is the one that holds, and the result repeats what it was given. */
  lemma ReasonsAreExact(r: ActionReceipt, e: Evidence, tf: bool, v: Option<OutcomeViolation>, x: Expectation)
    ensures var s := VerifyCancellation(r, e, tf, v, x);
            && s.receipt == r && s.evidence == e
            && (s.consumer == ShownVerified <==> s.verdict == PASS)
            && (s.consumer == ShownNotCompleted <==> s.verdict == FAIL)
            && (s.reason == ChargedAfterDeadline <==> v.Some? && IsLateCharge(v.value, x))
            && (s.reason == ViolationUncorrelated <==> v.Some? && !IsLateCharge(v.value, x))
            && (s.reason == EvidenceMalformed <==> v.None? && !IsWellFormed(e))
            && (s.reason == AccountUnavailable <==> v.None? && IsWellFormed(e) && !e.readable)
            && (s.reason == EvidenceStale <==> v.None? && IsWellFormed(e) && e.readable && !IsCurrent(e))
            && (s.reason == ReceiptUnreliable <==> v.None? && IsCurrent(e) && !ReportsSuccess(r))
            && (s.reason == EvidenceUncorrelated <==>
                  v.None? && IsCurrent(e) && ReportsSuccess(r) && !IsReliable(r, e, x))
            && (s.reason == WindowEndedStillRenewing <==> v.None? && IsProofOfRenewal(r, e, x) && tf)
            && (s.reason == StillRenewing <==> v.None? && IsProofOfRenewal(r, e, x) && !tf)
            && (s.reason == RenewalDisabled <==> v.None? && IsProofOfCancellation(r, e, x))
            && (s.reason == EvidenceInsufficient <==>
                  v.None? && IsReliable(r, e, x) && !IsProofOfRenewal(r, e, x) && !IsProofOfCancellation(r, e, x))
  {
    assert IsIsoDate("") ==> |""| == 10;
  }
}
