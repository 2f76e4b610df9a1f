/**
  Exactly when each kind of save is stored over a row, and exactly what it leaves: on the operation and the
  two rows alone, for every row that a trace can hold.
 */
module Effects {
  import opened Wrappers
  import opened Models
  import opened Outcomes
  import Confirmation
  import opened Records
  import opened Lifecycle
  import opened Contract
  import opened Traces
  import opened Invariants
  import opened Saving
  import opened Rules

  /** The save is accepted over the row. */
  ghost predicate IsStoredOver(v: Confirmation.Verifier, a: Record, op: Op) {
    exists b :: Advances(v, a, op, b)
  }

  lemma StoredIfAccepted(v: Confirmation.Verifier, a: Record, op: Op)
    requires IsValid(a) && IsSound(a)
    ensures a.history != []
    ensures IsStoredOver(v, a, op) <==>
              && Outcome(v, op, a).Ok? && HasFreshIds(op, a) && IsWritten(op, a)
              && !IsTerminal(a.state) && IsTimely(v, a, op)
  {
    hide IsValid, IsSound, Outcome, HasFreshIds, IsWritten, IsTimely, Accepts;
    PartsOf(a);
    if Outcome(v, op, a).Ok? && HasFreshIds(op, a) {
      SavesFailOnlyForClocksAndIdentifiers(v, a, op);
      if Accepts(a, Outcome(v, op, a).value) && IsWritten(op, a) {
        assert Advances(v, a, op, Stored(Outcome(v, op, a).value));
      }
    }
  }

  /** The row after a save, but for the version, which goes up by one. */
  predicate IsNextVersion(a: Record, next: Record, b: Record) {
    b == next.(version := a.version + 1)
  }

  // ----- confirmations

  /** The store keeps only attestations of known parties, at most 120 seconds old. */
  predicate IsKept(c: Confirmation.Claims, confirmedAt: int) {
    && !IsBlank(c.issuer) && |c.issuer| <= 512 && !IsBlank(c.tokenId)
    && c.issuedAt * SECOND <= confirmedAt < c.expiresAt * SECOND
    && confirmedAt <= (c.issuedAt + 120) * SECOND
  }

  lemma ConfirmationsAreStoredExactly(v: Confirmation.Verifier, a: Record, op: Op)
    requires IsValid(a) && IsSound(a) && op.Confirm?
    ensures a.history != []
    ensures var digest := CancelDigest(a.ownerId, a.resolutionId, a.intent, a.providerMode, a.target.digest);
            IsStoredOver(v, a, op) <==>
              && a.state == AWAITING_CONFIRMATION
              && Last(a.history).at <= op.confirmedAt <= op.at
              && Confirms(v, op.token, a.ownerId, a.resolutionId, CancelSubscription, digest, op.confirmedAt)
              && IsKept(v.decode(op.token).value, op.confirmedAt)
  {
    hide IsValid, IsSound, Confirmation.VerifyAttestation, IsBlank, Confirmation.Utf8Length;
    StoredIfAccepted(v, a, op);
    TokensAreAcceptedExactly(
      v, op.token,
      Confirmation.ExpectedConfirmation(a.ownerId, a.resolutionId, CancelSubscription, CancelActionDigest(a)),
      op.confirmedAt);
  }

  lemma ConfirmationsLeaveExactly(v: Confirmation.Verifier, a: Record, op: Op, b: Record)
    requires op.Confirm? && Advances(v, a, op, b)
    ensures v.decode(op.token).Some?
    ensures IsNextVersion(
              a, a.(state := EXECUTING, updatedAt := op.at, confirmedAt := Some(op.confirmedAt),
                    history := a.history
                               + [Transition(EXECUTING, op.at, None, Some(KeptOf(op.token, v.decode(op.token).value)))]),
              b)
  {
    hide IsValid, Confirmation.VerifyAttestation, CancelActionDigest, Confirms, KeptOf, Accepts;
    TokensAreAcceptedExactly(
      v, op.token,
      Confirmation.ExpectedConfirmation(a.ownerId, a.resolutionId, CancelSubscription, CancelActionDigest(a)),
      op.confirmedAt);
    ConfirmingTokensDecode(v, op.token, a.ownerId, a.resolutionId, CancelSubscription, CancelActionDigest(a), op.confirmedAt);
    AcceptedVersion(v, a, op);
  }

  lemma AcceptedVersion(v: Confirmation.Verifier, a: Record, op: Op)
    requires Outcome(v, op, a).Ok? && Accepts(a, Outcome(v, op, a).value)
    ensures Outcome(v, op, a).value.version == a.version
  {
    hide IsValid, Outcome;
  }

  // ----- the provider's answer

  lemma AnswersAreStoredExactly(v: Confirmation.Verifier, a: Record, op: Op)
    requires IsValid(a) && IsSound(a) && op.FirstClaim?
    ensures a.history != []
    ensures IsStoredOver(v, a, op) <==>
              a.state == EXECUTING && !IsBlank(op.freshId) && Last(a.history).at <= op.observedAt <= op.at
  {
    hide IsValid, IsSound, IsBlank, ReceiptFor;
    StoredIfAccepted(v, a, op);
  }

  lemma AnswersLeaveExactly(v: Confirmation.Verifier, a: Record, op: Op, b: Record)
    requires op.FirstClaim? && Advances(v, a, op, b)
    ensures IsNextVersion(
              a, a.(state := VERIFYING, updatedAt := op.at, checkCount := a.checkCount + 1,
                    history := a.history + [Transition(VERIFYING, op.at, None, None)],
                    claim := Some(ReceiptFor(op.answer, op.freshId)), claimObservedAt := Some(op.observedAt)),
              b)
  {
    hide IsValid, ReceiptFor, Accepts;
    AcceptedVersion(v, a, op);
  }

  // ----- rechecks

  /** A check is claimed over a row exactly when one may be made, on a clock that is not behind the row. */
  lemma RechecksAreStoredExactly(v: Confirmation.Verifier, a: Record, op: Op)
    requires IsValid(a) && IsSound(a) && op.Recheck?
    ensures a.history != []
    ensures IsStoredOver(v, a, op) <==>
              MayBeRechecked(a, op.at, op.scheduledFor, op.force) && Last(a.history).at <= op.at
  {
    hide IsValid, IsSound, RecheckRefusal, MayBeRechecked;
    StoredIfAccepted(v, a, op);
    RechecksAreAdmittedExactly(a, op.at, op.scheduledFor, op.force);
    if MayBeRechecked(a, op.at, op.scheduledFor, op.force) {
      RecheckedIsOpen(a, op.at, op.scheduledFor, op.force);
    }
  }

  lemma RecheckedIsOpen(r: Record, now: int, scheduledFor: Option<int>, force: bool)
    requires MayBeRechecked(r, now, scheduledFor, force)
    ensures r.state == VERIFYING || r.state == AWAITING_PROOF
  {
  }

  /** The claim takes one check from the budget; from AWAITING_PROOF it also drops the last result and its schedule. */
  lemma RechecksLeaveExactly(v: Confirmation.Verifier, a: Record, op: Op, b: Record)
    requires op.Recheck? && Advances(v, a, op, b)
    ensures var claimed := a.(state := VERIFYING, updatedAt := op.at, checkCount := a.checkCount + 1,
                              history := a.history + [Transition(VERIFYING, op.at, None, None)]);
            IsNextVersion(
              a, if a.state == VERIFYING then claimed
                 else claimed.(nextCheckAt := None, evidence := None, evidenceObservedAt := None, verification := None,
                               verifiedAt := None),
              b)
  {
    hide IsValid, RecheckRefusal, MayBeRechecked, Accepts;
    AcceptedVersion(v, a, op);
    RechecksAreAdmittedExactly(a, op.at, op.scheduledFor, op.force);
    RecheckedIsOpen(a, op.at, op.scheduledFor, op.force);
  }

  // ----- checks

  /** A read-back is recorded exactly over a VERIFYING row, under unused identifiers, in time, with an identified charge. */
  lemma ChecksAreStoredExactly(v: Confirmation.Verifier, a: Record, op: Op)
    requires IsValid(a) && IsSound(a) && op.RecordCheck?
    ensures a.history != []
    ensures IsStoredOver(v, a, op) <==>
              && a.state == VERIFYING && Last(a.history).at <= op.at && IsTraceable(a.violations, op.at)
              && !IsBlank(op.attemptId)
              && (forall i :: 0 <= i < |a.attempts| ==> a.attempts[i].attemptId != op.attemptId)
              && (forall i :: 0 <= i < |a.recoveries| ==> a.recoveries[i].recoveryId != op.supply.recoveryId)
  {
    hide IsValid, IsSound, IsBlank, IsTraceable, RecordVerification;
    StoredIfAccepted(v, a, op);
    if a.state == VERIFYING {
      VerifyingHasClaim(a);
    }
  }

  lemma VerifyingHasClaim(a: Record)
    requires IsValid(a) && a.state == VERIFYING
    ensures a.claim.Some?
  {
    hide IsBound, HasValidAttempts, HasValidHistory, HasValidNames, HasValidSchedule, HasValidBudget, IsConfirmed;
  }

  lemma ChecksLeave(v: Confirmation.Verifier, a: Record, op: Op, b: Record)
    requires op.RecordCheck? && Advances(v, a, op, b)
    ensures a.claim.Some? && b.version == a.version + 1
    ensures var next := b.(version := a.version);
            && IsAttempted(a, a.claim.value, EvidenceFor(op.seen, a.target, op.attemptId), op.attemptId, op.eligible,
                           op.at, next)
            && IsFollowedUp(a, next, op.at, op.supply)
  {
    hide IsValid, RecordVerification, EvidenceFor, IsAttempted, IsFollowedUp, Accepts, HasFreshIds;
    AcceptedVersion(v, a, op);
    ChecksLeaveExactly(a, a.claim.value, EvidenceFor(op.seen, a.target, op.attemptId), op.attemptId, op.eligible, op.at,
                       op.supply);
    assert b.(version := a.version) == Outcome(v, op, a).value;
  }

  /**
    A stored check ends every recovery that waited for it, in the sense of its own outcome: completed exactly
    with VERIFIED, failed exactly with NOT_COMPLETED, and still waiting exactly while proof is awaited.
   */
  lemma ChecksSettleRecoveries(v: Confirmation.Verifier, tr: Trace, i: nat, n: nat)
    requires IsTrace(v, tr) && i < |tr.ops| && tr.ops[i].RecordCheck? && n < |tr.rows[i].recoveries|
    ensures n < |tr.rows[i + 1].recoveries|
    ensures var before, after, row, at := tr.rows[i].recoveries[n], tr.rows[i + 1].recoveries[n], tr.rows[i + 1], tr.ops[i].at;
            && (before.state != Verifying ==> after == before)
            && (before.state == Verifying ==>
                  && (after.state == Completed <==> row.state == VERIFIED)
                  && (after.state == Failed <==> row.state == NOT_COMPLETED)
                  && (after.state == Verifying <==> row.state == AWAITING_PROOF)
                  && after == before.(state := after.state, marks := after.marks)
                  && after.marks == before.marks
                       + (if row.state == AWAITING_PROOF then [] else [RecoveryMark(after.state, at)]))
  {
    hide Advances, IsNewRecord, FollowsClaim, IsAttempted;
    assert IsStep(v, tr, i);
    ChecksLeave(v, tr.rows[i], tr.ops[i], tr.rows[i + 1]);
    var next := tr.rows[i + 1].(version := tr.rows[i].version);
    assert IsSettled(tr.rows[i].recoveries[n], next.recoveries[n], next.state, tr.ops[i].at);
  }

  // ----- recovery decisions

  /** A decision is stored exactly for a pending recovery that expired, or may be carried out and was declined or truly confirmed. */
  lemma DecisionsAreStoredExactly(v: Confirmation.Verifier, a: Record, op: Op)
    requires IsValid(a) && IsSound(a) && op.Decide?
    ensures a.history != []
    ensures IsStoredOver(v, a, op) <==>
              && !IsTerminal(a.state) && Last(a.history).at <= op.at
              && exists n :: MayBeDecided(v, a, n, a.ownerId, a.resolutionId, op.recoveryId, op.confirmed, op.token, op.at)
  {
    hide IsValid, IsSound, DecideRecovery, Confirms, RecoveryIndex;
    StoredIfAccepted(v, a, op);
    DecisionsAreMadeExactly(v, a, a.ownerId, a.resolutionId, op.recoveryId, op.confirmed, op.token, op.at);
    if n :| MayBeDecided(v, a, n, a.ownerId, a.resolutionId, op.recoveryId, op.confirmed, op.token, op.at) {
      PendingIsUnique(a, n, a.ownerId, a.resolutionId, op.recoveryId);
    }
  }

  /**
    A stored decision moves the one recovery that it names, which awaited it: to EXPIRED exactly when its time
    is up, otherwise to DECLINED exactly without consent and to EXECUTING exactly with it.
   */
  lemma DecisionsMoveOneRecovery(v: Confirmation.Verifier, tr: Trace, i: nat) returns (n: nat)
    requires IsTrace(v, tr) && i < |tr.ops| && tr.ops[i].Decide?
    ensures n < |tr.rows[i].recoveries| == |tr.rows[i + 1].recoveries|
    ensures var before, after, op := tr.rows[i].recoveries[n], tr.rows[i + 1].recoveries[n], tr.ops[i];
            && before.recoveryId == op.recoveryId && before.state == AwaitingConfirmation
            && (after.state == Expired <==> before.expiresAt <= op.at)
            && (after.state == Declined <==> op.at < before.expiresAt && !op.confirmed)
            && (after.state == Executing <==> op.at < before.expiresAt && op.confirmed)
            && after == before.(state := after.state, marks := before.marks + [RecoveryMark(after.state, op.at)],
                                attestationId := after.attestationId)
            && (after.state == Executing ==>
                  v.decode(op.token).Some? && after.attestationId == Some(v.decode(op.token).value.tokenId))
            && (after.state != Executing ==> after.attestationId == before.attestationId)
    ensures forall j :: 0 <= j < |tr.rows[i].recoveries| && j != n ==> tr.rows[i + 1].recoveries[j] == tr.rows[i].recoveries[j]
  {
    hide IsValid, IsNewRecord, FollowsClaim, DecideRecovery, Confirms, RecoveryIndex, Accepts;
    assert IsStep(v, tr, i);
    var a, op := tr.rows[i], tr.ops[i];
    n := RecoveryIndex(a.recoveries, op.recoveryId);
    DecisionsAreMadeExactly(v, a, a.ownerId, a.resolutionId, op.recoveryId, op.confirmed, op.token, op.at);
  }

  // ----- charges

  /** A charge is stored exactly if it is admissible and new, over an open row, on a clock that is not behind it. */
  lemma ChargesAreStoredExactly(v: Confirmation.Verifier, a: Record, op: Op)
    requires IsValid(a) && IsSound(a) && op.Observe?
    ensures a.history != []
    ensures IsStoredOver(v, a, op) <==>
              && !IsTerminal(a.state) && Last(a.history).at <= op.at
              && IsAdmissibleCharge(a, a.ownerId, a.resolutionId, op.violation, op.at)
              && (forall i :: 0 <= i < |a.violations| ==> a.violations[i].evidenceId != op.violation.evidenceId)
              && (forall i :: 0 <= i < |a.recoveries| ==> a.recoveries[i].recoveryId != op.supply.recoveryId)
  {
    hide IsValid, IsSound, ViolationRefusal, IsAdmissibleCharge, RecordViolation;
    StoredIfAccepted(v, a, op);
    ChargesAreAdmittedExactly(a, a.ownerId, a.resolutionId, op.violation, op.at);
  }

  /** A stored charge is kept, with its urgent event raised once, and a refund draft where one was not proposed before. */
  lemma ChargesLeaveExactly(v: Confirmation.Verifier, a: Record, op: Op, b: Record)
    requires op.Observe? && Advances(v, a, op, b)
    ensures b.version == a.version + 1
    ensures IsCharged(a, op.violation, op.at, op.supply, b.(version := a.version))
    ensures WasNoted(b, CHARGED)
  {
    hide IsValid, RecordViolation, Accepts, HasFreshIds, IsCharged, IsWritten;
    AcceptedVersion(v, a, op);
    ChargesAreRecordedExactly(a, op.violation, op.at, op.supply);
    assert b.(version := a.version) == Outcome(v, op, a).value;
    ChargedIsNoted(a, op.violation, op.at, op.supply, b);
  }

  lemma ChargedIsNoted(a: Record, e: OutcomeViolation, now: int, supply: Supply, b: Record)
    requires IsCharged(a, e, now, supply, b.(version := a.version))
    ensures WasNoted(b, CHARGED)
  {
    if WasNoted(a, CHARGED) {
      var x :| x in a.attention && x.key == CHARGED;
      assert x in b.attention;
    } else {
      assert Noted(a, CHARGED, supply.eventId, now) in b.attention;
    }
  }

  // ----- how recoveries end

  lemma FinishesLeaveExactly(v: Confirmation.Verifier, a: Record, op: Op, b: Record) returns (n: nat)
    requires op.Finish? && Advances(v, a, op, b)
    ensures b.version == a.version + 1
    ensures IsFinished(a, n, op.asked, op.isRefund, op.reply, op.at, b.(version := a.version))
    ensures a.recoveries[n] == op.asked && op.asked.state == Executing
  {
    hide IsValid, FinishRecovery, Accepts, HasFreshIds, RecoveryIndex;
    AcceptedVersion(v, a, op);
    RecoveriesFinishExactly(a, op.asked, op.isRefund, op.reply, op.at);
    n := RecoveryIndex(a.recoveries, op.asked.recoveryId);
    assert b.(version := a.version) == Outcome(v, op, a).value;
  }
}
