/**
  What the validator guarantees of every record it lets through, whoever built it: nothing in it belongs to
  another resolution, its times are in order, and its outcome follows from what it holds.
 */
module Validity {
  import opened Wrappers
  import opened Models
  import opened Outcomes
  import opened Verifier
  import opened Confirmation
  import opened Records
  import opened Contract

  /** Everything in a valid record names its owner, its resolution and its target. */
  lemma ValidRecordsHoldTheirOwn(r: Record)
    requires IsValid(r)
    ensures r.target == ResourceIdentity(
                          DemoProviderName, SubjectDigest(r.ownerId), StreamBoxSubscription,
                          TargetDigest(DemoProviderName, SubjectDigest(r.ownerId), StreamBoxSubscription))
    ensures r.contract.Some? ==>
              r.contract.value.targetDigest == r.target.digest && r.contract.value.resolutionType == r.resolutionType
    ensures forall e :: e in r.attention ==>
              e.owner == r.ownerId && e.resolution == r.resolutionId && e.targetDigest == r.target.digest
    ensures forall w :: w in r.violations ==>
              w.owner == r.ownerId && w.resolution == r.resolutionId && w.targetDigest == r.target.digest
    ensures forall a :: a in r.recoveries ==>
              a.digest == RecoveryDigest(a.recoveryId, r.ownerId, r.resolutionId, r.target.digest, a.kind, a.reason, a.expiresAt)
    ensures !IsBlank(r.ownerId) && !IsBlank(r.resolutionId) && !IsBlank(r.intent) && !IsBlank(r.providerMode)
    ensures r.version >= 0
  {
    hide HasValidHistory, HasValidPhase, HasValidAttempts, HasValidSchedule, HasValidBudget, IsBlank;
  }

  /** A started record has exactly one attestation, at EXECUTING, bound to itself and at most 120 seconds old when confirmed. */
  lemma ValidRecordsAreConfirmed(r: Record)
    requires IsValid(r)
    ensures r.state == AWAITING_CONFIRMATION ==> Attested(r.history) == [] && r.confirmedAt.None?
    ensures r.state != AWAITING_CONFIRMATION ==>
              && |Attested(r.history)| == 1 && r.confirmedAt.Some?
              && Attested(r.history)[0].state == EXECUTING && Attested(r.history)[0].attestation.Some?
              && var x, at := Attested(r.history)[0].attestation.value, r.confirmedAt.value;
                 && x.actionDigest == CancelDigest(r.ownerId, r.resolutionId, r.intent, r.providerMode, r.target.digest)
                 && x.version == ConfirmationV1 && !IsBlank(x.issuer) && !IsBlank(x.attestationId)
                 && |x.issuer| <= 512 && |x.attestationId| <= 128 && IsHexDigest(x.tokenDigest)
                 && x.issuedAt <= at < x.expiresAt <= x.issuedAt + 300 * SECOND && at <= x.issuedAt + 120 * SECOND
  {
    hide IsBound, HasValidHistory, HasValidAttempts, HasValidSchedule, HasValidBudget, HasValidNames, IsVerified, IsBlank;
    hide HasExecuted, HasNoEvidence;
  }

  /** A confirmation cannot be moved to another resolution: two valid records that share it are of the same action. */
  lemma ConfirmationsCannotBeTransplanted(a: Record, b: Record)
    requires IsValid(a) && IsValid(b) && a.state != AWAITING_CONFIRMATION && b.state != AWAITING_CONFIRMATION
    requires Attested(a.history) == Attested(b.history)
    ensures a.ownerId == b.ownerId && a.resolutionId == b.resolutionId && a.intent == b.intent
            && a.providerMode == b.providerMode && a.target == b.target
  {
    hide IsValid;
    ValidRecordsAreConfirmed(a);
    ValidRecordsAreConfirmed(b);
    ValidRecordsHoldTheirOwn(a);
    ValidRecordsHoldTheirOwn(b);
  }

  /** The times of a valid record are in the order of its lifecycle. */
  lemma ValidRecordsAreInOrder(r: Record)
    requires IsValid(r)
    ensures r.history != [] && r.history[0].state == REQUESTED && r.history[0].contractVersion == Some(ConfirmationV1)
    ensures Last(r.history).state == r.state
    ensures r.createdAt <= r.history[0].at && Last(r.history).at <= r.updatedAt
    ensures forall i :: 1 <= i < |r.history| ==>
              && r.history[i - 1].at <= r.history[i].at && r.history[i].contractVersion.None?
              && CanMove(r.history[i - 1].state, r.history[i].state)
    ensures r.state != AWAITING_CONFIRMATION ==>
              && LastEntry(r.history, AWAITING_CONFIRMATION).Some? && LastEntry(r.history, EXECUTING).Some?
              && r.confirmedAt.Some?
              && LastEntry(r.history, AWAITING_CONFIRMATION).value <= r.confirmedAt.value
              && r.confirmedAt.value <= LastEntry(r.history, EXECUTING).value
    ensures r.state != AWAITING_CONFIRMATION && r.state != EXECUTING ==>
              && LastEntry(r.history, VERIFYING).Some? && r.claim.Some? && r.claimObservedAt.Some?
              && LastEntry(r.history, EXECUTING).value <= r.claimObservedAt.value <= LastEntry(r.history, VERIFYING).value
    ensures r.state == AWAITING_PROOF || IsTerminal(r.state) ==>
              && r.evidence.Some? && r.evidenceObservedAt.Some? && r.verification.Some? && r.verifiedAt.Some?
              && LastEntry(r.history, VERIFYING).value <= r.evidenceObservedAt.value <= r.verifiedAt.value
              && r.verifiedAt.value <= Last(r.history).at
  {
    hide IsBound, HasValidAttempts, HasValidSchedule, HasValidBudget, HasValidNames, IsValidAttestation, Recomputed;
    hide LastEntry, Attested;
  }

  /** Before a step was made, a valid record holds nothing that the step would leave. */
  lemma ValidRecordsHoldNothingEarly(r: Record)
    requires IsValid(r)
    ensures r.state == AWAITING_CONFIRMATION || r.state == EXECUTING ==> r.claim.None? && r.claimObservedAt.None?
    ensures r.state == AWAITING_CONFIRMATION || r.state == EXECUTING || r.state == VERIFYING ==>
              r.evidence.None? && r.evidenceObservedAt.None? && r.verification.None? && r.verifiedAt.None?
    ensures r.state != REQUESTED
  {
    hide IsBound, HasValidHistory, HasValidAttempts, HasValidSchedule, HasValidBudget, HasValidNames, IsConfirmed, IsVerified;
  }

  /** Budget, attempts and schedule of a valid record. */
  lemma ValidRecordsKeepTheirBudget(r: Record)
    requires IsValid(r)
    ensures 1 <= r.maxChecks <= 4 && |r.attempts| <= r.checkCount <= r.maxChecks
    ensures r.state == AWAITING_PROOF ==> r.resolvedAt.None? && (r.nextCheckAt.Some? <==> r.checkCount < r.maxChecks)
    ensures IsTerminal(r.state) ==> r.nextCheckAt.None? && r.resolvedAt.Some?
    ensures forall i :: 0 <= i < |r.attempts| ==> r.attempts[i].attemptId != "" && 1 <= r.attempts[i].checkCount <= r.checkCount
    ensures forall i, j :: 0 <= i < j < |r.attempts| ==>
              && r.attempts[i].attemptId != r.attempts[j].attemptId
              && r.attempts[i].checkCount < r.attempts[j].checkCount
              && r.attempts[i].checkedAt <= r.attempts[j].checkedAt
  {
    hide IsBound, HasValidHistory, HasValidPhase, HasValidNames;
  }

  /** The context in which a record's own outcome is judged: its target, its last attempt, its deadline. */
  function OwnExpectation(r: Record): Expectation {
    Expectation(Some(r.target.digest), if r.attempts == [] then None else Some(Last(r.attempts).attemptId),
                Some(r.ownerId), Some(r.resolutionId),
                if r.contract.Some? then r.contract.value.deadlineAt else None,
                if r.attempts == [] then r.verifiedAt else Some(Last(r.attempts).checkedAt))
  }

  /** The charge that the last attempt names. */
  function NamedCharge(r: Record): Option<OutcomeViolation> {
    if r.attempts == [] || Last(r.attempts).violationId == Some("") then None
    else ViolationById(r.violations, Last(r.attempts).violationId)
  }

  /**
    An outcome cannot be forged: a valid record is VERIFIED exactly if its own receipt and evidence prove it
    and its last attempt names no charge, and NOT_COMPLETED exactly if the charge it names is late, or it
    names none and the last check of the budget may end the window and proves renewal.
   */
  lemma OutcomesCannotBeForged(r: Record)
    requires IsValid(r) && (r.state == AWAITING_PROOF || IsTerminal(r.state))
    ensures r.claim.Some? && r.evidence.Some?
    ensures r.state == VERIFIED <==>
              NamedCharge(r).None? && IsProofOfCancellation(r.claim.value, r.evidence.value, OwnExpectation(r))
    ensures r.state == NOT_COMPLETED <==>
              || (NamedCharge(r).Some? && IsLateCharge(NamedCharge(r).value, OwnExpectation(r)))
              || (NamedCharge(r).None? && r.attempts != [] && Last(r.attempts).eligible && r.checkCount == r.maxChecks
                  && IsProofOfRenewal(r.claim.value, r.evidence.value, OwnExpectation(r)))
  {
    hide IsBound, HasValidHistory, HasValidAttempts, HasValidSchedule, HasValidNames, IsConfirmed, HasExecuted;
    hide VerifyCancellation, IsProofOfCancellation, IsProofOfRenewal, IsLateCharge, LastEntry, ViolationById;
    NoneNamesNothing(r.violations);
    var last := r.attempts != [] && Last(r.attempts).eligible && r.checkCount >= r.maxChecks;
    PassExactlyForProof(r.claim.value, r.evidence.value, last, NamedCharge(r), OwnExpectation(r));
    FailExactlyForRefutation(r.claim.value, r.evidence.value, last, NamedCharge(r), OwnExpectation(r));
  }

  lemma NoneNamesNothing(vs: seq<OutcomeViolation>)
    ensures ViolationById(vs, None).None?
  {
  }
}
