/** What every stored record must satisfy, and when a save is accepted (repository_contract.py). */
module Contract {
  import opened Wrappers
  import opened Models
  import opened Outcomes
  import opened Verifier
  import opened Confirmation
  import opened Records
  import opened Lifecycle

  // ----- the clauses of validate_target_record

  predicate IsBoundEvent(r: Record, e: AttentionEvent) {
    e.owner == r.ownerId && e.resolution == r.resolutionId && e.targetDigest == r.target.digest
  }

  predicate IsBoundRecovery(r: Record, a: RecoveryAction) {
    && a.owner == r.ownerId && a.resolution == r.resolutionId && a.targetDigest == r.target.digest
    && a.digest == RecoveryActionDigest(a)
  }

  predicate IsBoundViolation(r: Record, v: OutcomeViolation) {
    v.owner == r.ownerId && v.resolution == r.resolutionId && v.targetDigest == r.target.digest
  }

  predicate IsBound(r: Record) {
    && r.target == DemoResourceIdentity(r.ownerId)
    && (r.contract.Some? ==>
          r.contract.value.targetDigest == r.target.digest && r.contract.value.resolutionType == r.resolutionType)
    && (forall i :: 0 <= i < |r.attention| ==> IsBoundEvent(r, r.attention[i]))
    && (forall i :: 0 <= i < |r.recoveries| ==> IsBoundRecovery(r, r.recoveries[i]))
    && (forall i :: 0 <= i < |r.violations| ==> IsBoundViolation(r, r.violations[i]))
  }

  predicate HasValidBudget(r: Record) {
    && 1 <= r.maxChecks <= MAX_VERIFICATION_CHECKS
    && 0 <= r.checkCount <= r.maxChecks
    && |r.attempts| <= r.checkCount
  }

  predicate HasValidSchedule(r: Record) {
    && (r.state == AWAITING_PROOF ==>
          && r.verification.Some? && r.verification.value.verdict == INCONCLUSIVE
          && r.resolvedAt.None?
          && (r.checkCount < r.maxChecks <==> r.nextCheckAt.Some?))
    && (IsTerminal(r.state) ==> r.nextCheckAt.None? && r.resolvedAt.Some?)
  }

  predicate HasValidAttempts(attempts: seq<Attempt>, checkCount: int) {
    && (forall i :: 0 <= i < |attempts| ==> attempts[i].attemptId != "" && 0 < attempts[i].checkCount <= checkCount)
    && (forall i, j :: 0 <= i < j < |attempts| ==>
          && attempts[i].attemptId != attempts[j].attemptId
          && attempts[i].checkCount < attempts[j].checkCount
          && attempts[i].checkedAt <= attempts[j].checkedAt)
  }

  predicate HasValidNames(r: Record) {
    && !IsBlank(r.resolutionId) && !IsBlank(r.ownerId) && !IsBlank(r.intent) && !IsBlank(r.providerMode)
    && 0 <= r.version
  }

  /** A walk of the transition graph from REQUESTED with nondecreasing times. */
  predicate IsWalk(h: seq<Transition>) {
    && h != []
    && h[0].state == REQUESTED && h[0].contractVersion == Some(ConfirmationV1)
    && (forall i :: 1 <= i < |h| ==>
          h[i].contractVersion.None? && CanMove(h[i - 1].state, h[i].state) && h[i - 1].at <= h[i].at)
  }

  predicate HasValidHistory(r: Record) {
    && IsWalk(r.history)
    && Last(r.history).state == r.state
    && r.createdAt <= r.history[0].at <= Last(r.history).at <= r.updatedAt
  }

  predicate HasNoEvidence(r: Record) {
    r.evidence.None? && r.evidenceObservedAt.None? && r.verification.None? && r.verifiedAt.None?
  }

  predicate HasNoClaim(r: Record) {
    r.claim.None? && r.claimObservedAt.None?
  }

  predicate IsValidAttestation(r: Record, a: Attestation, confirmedAt: int) {
    && a.version == ConfirmationV1
    && !IsBlank(a.issuer) && |a.issuer| <= MAX_ISSUER_LENGTH
    && !IsBlank(a.attestationId) && |a.attestationId| <= MAX_ATTESTATION_ID_LENGTH
    && IsHexDigest(a.actionDigest) && IsHexDigest(a.tokenDigest)
    && a.actionDigest == CancelActionDigest(r)
    && InExactWindow(a.issuedAt, a.expiresAt, confirmedAt)
  }

  /** Exactly one attestation, on the transition to EXECUTING, bound to this record and fresh when confirmed. */
  predicate IsConfirmed(r: Record) {
    && r.confirmedAt.Some?
    && LastEntry(r.history, AWAITING_CONFIRMATION).Some?
    && LastEntry(r.history, EXECUTING).Some?
    && LastEntry(r.history, AWAITING_CONFIRMATION).value <= r.confirmedAt.value
    && r.confirmedAt.value <= LastEntry(r.history, EXECUTING).value
    && |Attested(r.history)| == 1
    && Attested(r.history)[0].state == EXECUTING
    && Attested(r.history)[0].attestation.Some?
    && IsValidAttestation(r, Attested(r.history)[0].attestation.value, r.confirmedAt.value)
  }

  predicate HasExecuted(r: Record) {
    && r.claim.Some? && r.claimObservedAt.Some?
    && LastEntry(r.history, EXECUTING).Some? && LastEntry(r.history, VERIFYING).Some?
    && LastEntry(r.history, EXECUTING).value <= r.claimObservedAt.value <= LastEntry(r.history, VERIFYING).value
  }

  function ConsumerStateFor(v: Verdict): ConsumerState {
    match v
    case PASS => ShownVerified
    case FAIL => ShownNotCompleted
    case INCONCLUSIVE => ShownAwaitingProof
  }

  /** The first stored violation with an identifier; an empty identifier names none. */
  function ViolationById(vs: seq<OutcomeViolation>, id: Option<string>): (v: Option<OutcomeViolation>)
    ensures v.Some? ==> v.value in vs && Some(v.value.violationId) == id
    ensures v.None? <==> forall i :: 0 <= i < |vs| ==> Some(vs[i].violationId) != id
  {
    if vs == [] then None
    else if Some(vs[0].violationId) == id then Some(vs[0])
    else
      assert forall i :: 1 <= i < |vs| ==> vs[i] == vs[1..][i - 1];
      ViolationById(vs[1..], id)
  }

  /** It is the first one: no violation before it has that identifier. */
  lemma {:induction false} ViolationByIdIsTheFirst(vs: seq<OutcomeViolation>, id: Option<string>)
    ensures match ViolationById(vs, id)
            case None => forall i :: 0 <= i < |vs| ==> Some(vs[i].violationId) != id
            case Some(w) => exists i :: 0 <= i < |vs| && vs[i] == w && Some(vs[i].violationId) == id
                                        && forall j :: 0 <= j < i ==> Some(vs[j].violationId) != id
  {
    if vs != [] && Some(vs[0].violationId) != id && ViolationById(vs, id).Some? {
      ViolationByIdIsTheFirst(vs[1..], id);
      var i :| 0 <= i < |vs| - 1 && vs[1..][i] == ViolationById(vs, id).value
               && forall j :: 0 <= j < i ==> Some(vs[1..][j].violationId) != id;
      assert vs[i + 1] == vs[1..][i];
      forall j | 0 <= j < i + 1 ensures Some(vs[j].violationId) != id {
        assert j > 0 ==> vs[j] == vs[1..][j - 1];
      }
    }
  }

  /** The verdict that the stored evidence calls for, re-derived from the last attempt. */
  function Recomputed(r: Record): VerificationResult
    requires r.claim.Some? && r.evidence.Some?
  {
    var deadline := if r.contract.Some? then r.contract.value.deadlineAt else None;
    if r.attempts == [] then
      VerifyCancellation(r.claim.value, r.evidence.value, false, None,
                         Expectation(Some(r.target.digest), None, Some(r.ownerId), Some(r.resolutionId),
                                     deadline, r.verifiedAt))
    else
      var a := Last(r.attempts);
      VerifyCancellation(
        r.claim.value, r.evidence.value, a.eligible && r.checkCount >= r.maxChecks,
        if a.violationId.Some? && a.violationId.value != "" then ViolationById(r.violations, a.violationId) else None,
        ExpectationOf(r, a.attemptId, a.checkedAt))
  }

  predicate IsVerified(r: Record) {
    && r.evidence.Some? && r.evidenceObservedAt.Some? && r.verification.Some? && r.verifiedAt.Some?
    && r.claim.Some?
    && LastEntry(r.history, VERIFYING).Some?
    && LastEntry(r.history, VERIFYING).value <= r.evidenceObservedAt.value <= r.verifiedAt.value
    && r.history != [] && r.verifiedAt.value <= Last(r.history).at
    && r.state == TerminalStateFor(r.verification.value.verdict)
    && r.verification.value.consumer == ConsumerStateFor(r.verification.value.verdict)
    && r.claim.value == r.verification.value.receipt
    && r.evidence.value == r.verification.value.evidence
    && r.verification.value == Recomputed(r)
  }

  /** What the record must hold in its state. */
  predicate HasValidPhase(r: Record) {
    match r.state
    case REQUESTED => false
    case AWAITING_CONFIRMATION =>
      Attested(r.history) == [] && r.confirmedAt.None? && HasNoClaim(r) && HasNoEvidence(r)
    case EXECUTING => IsConfirmed(r) && HasNoClaim(r) && HasNoEvidence(r)
    case VERIFYING => IsConfirmed(r) && HasExecuted(r) && HasNoEvidence(r)
    case _ => IsConfirmed(r) && HasExecuted(r) && IsVerified(r)
  }

  predicate IsValid(r: Record) {
    && IsBound(r)
    && HasValidBudget(r)
    && HasValidSchedule(r)
    && HasValidAttempts(r.attempts, r.checkCount)
    && HasValidNames(r)
    && HasValidHistory(r)
    && HasValidPhase(r)
  }

  predicate IsValidNew(r: Record) {
    && r.state == AWAITING_CONFIRMATION
    && r.version == 0
    && |r.history| == 2 && r.history[0].state == REQUESTED && r.history[1].state == AWAITING_CONFIRMATION
    && IsValid(r)
  }

  // ----- the conditional save, as one atomic decision

  /** A save of `next` over the stored `row`, at the version the writer read, is accepted. */
  predicate Accepts(row: Record, next: Record) {
    && row.ownerId == next.ownerId && row.resolutionId == next.resolutionId
    && row.version == next.version
    && !IsTerminal(row.state)
    && (row.state == next.state || CanMove(row.state, next.state))
    && |next.history| >= 2
    && (|| row.history == next.history[..|next.history| - 1]
        || (row.state == next.state && row.history == next.history))
    && IsValid(next)
  }

  /** The row that an accepted save leaves. */
  function Stored(next: Record): Record {
    next.(version := next.version + 1)
  }
}
