/**
  The rows one resolution goes through in the store: row i is the one stored at version i, and op i
  is the save that turned it into row i + 1. No schedule of the writers is assumed here.
 */
module Traces {
  import opened Wrappers
  import opened Models
  import opened Outcomes
  import opened Verifier
  import Confirmation
  import opened Records
  import opened Lifecycle
  import opened Contract

  /** A save the service attempts, with everything it read from the clock, the providers and the caller. */
  datatype Op =
    | Confirm(token: string, confirmedAt: int, at: int)
    | FirstClaim(answer: Reply<ActionReceipt>, freshId: string, observedAt: int, at: int)
    | Recheck(at: int, scheduledFor: Option<int>, force: bool)
    | RecordCheck(seen: Reply<Evidence>, attemptId: string, eligible: bool, at: int, supply: Supply)
    | Decide(recoveryId: string, confirmed: bool, token: string, at: int)
    | Finish(asked: RecoveryAction, isRefund: bool, reply: RecoveryReply, at: int)
    | Observe(violation: OutcomeViolation, at: int, supply: Supply)

  function FinishOutcome(a: Record, op: Op): Result<Record, Refusal>
    requires op.Finish?
  {
    match FinishRecovery(a, op.asked, op.isRefund, op.reply, op.at)
    case Some(b) => Ok(b)
    case None => Err(UnknownRecovery)
  }

  /** The record that the service builds from its copy `a` and then tries to save. */
  function Outcome(v: Confirmation.Verifier, op: Op, a: Record): Result<Record, Refusal> {
    match op
    case Confirm(token, confirmedAt, at) => BeginExecution(v, a, token, confirmedAt, at)
    case FirstClaim(answer, freshId, observedAt, at) =>
      if a.state != EXECUTING then Err(WrongState)
      else Ok(ClaimFirstCheck(a, ReceiptFor(answer, freshId), observedAt, at))
    case Recheck(at, scheduledFor, force) =>
      (match RecheckRefusal(a, at, scheduledFor, force)
       case Some(e) => Err(e)
       case None => Ok(ClaimRecheck(a, at)))
    case RecordCheck(seen, attemptId, eligible, at, supply) =>
      if a.state != VERIFYING || a.claim.None? then Err(WrongState)
      else Ok(RecordVerification(a, a.claim.value, EvidenceFor(seen, a.target, attemptId), attemptId, eligible, at, supply))
    case Decide(recoveryId, confirmed, token, at) =>
      (match DecideRecovery(v, a, a.ownerId, a.resolutionId, recoveryId, confirmed, token, at)
       case Ok(decision) => Ok(decision.record)
       case Err(e) => Err(e))
    case Finish(_, _, _, _) => FinishOutcome(a, op)
    case Observe(violation, at, supply) =>
      (match ViolationRefusal(a, a.ownerId, a.resolutionId, violation, at)
       case Some(e) => Err(e)
       case None => Ok(RecordViolation(a, violation, at, supply)))
  }

  predicate IsFreshRecoveryId(a: Record, id: string) {
    forall i :: 0 <= i < |a.recoveries| ==> a.recoveries[i].recoveryId != id
  }

  /** Generated identifiers are not blank and not in use in the record they are added to. */
  predicate HasFreshIds(op: Op, a: Record) {
    match op
    case FirstClaim(_, freshId, _, _) => !IsBlank(freshId)
    case RecordCheck(_, attemptId, _, _, supply) =>
      && !IsBlank(attemptId)
      && (forall i :: 0 <= i < |a.attempts| ==> a.attempts[i].attemptId != attemptId)
      && IsFreshRecoveryId(a, supply.recoveryId)
    case Observe(violation, _, supply) => IsFreshRecoveryId(a, supply.recoveryId)
    case _ => true
  }

  /** A recovery is finished by the call that claimed it: the stored action is the one the provider was given. */
  predicate FinishesOwnClaim(op: Op, a: Record)
    requires op.Finish?
  {
    var i := RecoveryIndex(a.recoveries, op.asked.recoveryId);
    && i < |a.recoveries|
    && a.recoveries[i] == op.asked
    && op.asked.state == Executing
    && op.isRefund == IsRefundPreparation(a, op.asked)
  }

  /** An evidence already known is not saved again. */
  predicate IsWritten(op: Op, a: Record) {
    && (op.Observe? ==> !HasEvidence(a, op.violation.evidenceId))
    && (op.Finish? ==> FinishesOwnClaim(op, a))
  }

  /** The save `op`, built from row `a`, was accepted over that row and left `b`. */
  predicate Advances(v: Confirmation.Verifier, a: Record, op: Op, b: Record) {
    && Outcome(v, op, a).Ok?
    && HasFreshIds(op, a)
    && IsWritten(op, a)
    && Accepts(a, Outcome(v, op, a).value)
    && b == Stored(Outcome(v, op, a).value)
  }

  /** The read-back that is recorded belongs to the claim that was saved immediately before. */
  predicate FollowsClaim(before: Record, claim: Op, op: Op)
    requires op.RecordCheck?
  {
    || (claim.FirstClaim? && !op.eligible)
    || (claim.Recheck? && op.at == claim.at && op.eligible == IsTerminalFailureEligible(before, claim.at))
  }

  datatype Trace = Trace(rows: seq<Record>, ops: seq<Op>)

  predicate IsShaped(tr: Trace) {
    |tr.rows| == |tr.ops| + 1
  }

  /**
    A provider's answer is stored by the call that confirmed, and a read-back by the call that claimed it:
    each directly after that other save. Here `op` would be save number `i`.
   */
  predicate CanFollow(tr: Trace, i: nat, op: Op)
    requires IsShaped(tr) && i <= |tr.ops|
  {
    && (op.FirstClaim? ==> 1 <= i && tr.ops[i - 1].Confirm?)
    && (op.RecordCheck? ==> 1 <= i && FollowsClaim(tr.rows[i - 1], tr.ops[i - 1], op))
  }

  predicate IsStep(v: Confirmation.Verifier, tr: Trace, i: nat)
    requires IsShaped(tr) && i < |tr.ops|
  {
    && Advances(v, tr.rows[i], tr.ops[i], tr.rows[i + 1])
    && CanFollow(tr, i, tr.ops[i])
  }

  /** A record as start_resolution builds it. */
  predicate IsNewRecord(r: Record) {
    r.contract.Some?
    && r.history != []
    && r == NewRecord(r.resolutionId, r.ownerId, r.intent, r.providerMode, r.contract.value,
                      r.createdAt, r.updatedAt)
    && IsValidNew(r)
  }

  ghost predicate IsTrace(v: Confirmation.Verifier, tr: Trace): (holds: bool)
    ensures holds ==> IsShaped(tr)
  {
    && IsShaped(tr)
    && IsNewRecord(tr.rows[0])
    && forall i :: 0 <= i < |tr.ops| ==> IsStep(v, tr, i)
  }

  // ----- what the saves leave alone

  /** The two records differ in attention, recoveries, violations, update time and version only. */
  predicate SameLifecycle(a: Record, b: Record) {
    a == b.(attention := a.attention, recoveries := a.recoveries, violations := a.violations,
            updatedAt := a.updatedAt, version := a.version)
  }

  predicate IsMetadata(op: Op) {
    op.Decide? || op.Finish? || op.Observe?
  }

  lemma AttendFrame(r: Record, key: Option<DedupeKey>, at: int, proposes: bool, supply: Supply)
    ensures var s := Attend(r, key, at, proposes, supply);
            s == r.(attention := s.attention, recoveries := s.recoveries)
  {
  }

  lemma MetadataFrame(v: Confirmation.Verifier, a: Record, op: Op)
    requires IsMetadata(op)
    requires Outcome(v, op, a).Ok?
    ensures SameLifecycle(a, Outcome(v, op, a).value)
    ensures Outcome(v, op, a).value.updatedAt == op.at
    ensures Outcome(v, op, a).value.version == a.version
    ensures !op.Observe? ==> Outcome(v, op, a).value.attention == a.attention
                             && Outcome(v, op, a).value.violations == a.violations
  {
    if op.Observe? {
      var noted := a.(violations := a.violations + [op.violation]);
      var key := AttentionKey(a.contract.value, a.state == VERIFIED, a.state == NOT_COMPLETED, None, true, op.at);
      AttendFrame(noted, key, op.at, true, op.supply);
    }
  }

  /** The attempt that a RecordCheck appends. */
  function AttemptFor(a: Record, op: Op): Attempt
    requires op.RecordCheck? && a.claim.Some?
  {
    AttemptOf(a, a.claim.value, EvidenceFor(op.seen, a.target, op.attemptId), op.attemptId, op.eligible, op.at)
  }

  lemma RecordCheckFrame(v: Confirmation.Verifier, a: Record, op: Op)
    requires op.RecordCheck?
    requires Outcome(v, op, a).Ok?
    ensures var b := Outcome(v, op, a).value;
            && SameLifecycle(StoreAttempt(a, AttemptFor(a, op)), b)
            && b.violations == a.violations && b.updatedAt == op.at && b.version == a.version
  {
    var stored := StoreAttempt(a, AttemptFor(a, op));
    var settled := stored.(recoveries := SettleAll(stored.recoveries, AttemptFor(a, op).result.verdict, op.at));
    var key := AttentionAfterCheck(settled, op.at);
    var proposes := && key.Some?
                    && (key.value.level == ACTION_NEEDED || key.value.level == URGENT)
                    && !IsTerminal(settled.state);
    AttendFrame(settled, key, op.at, proposes, op.supply);
  }

  // ----- what each kind of save does, without the checks that admit it

  /** The attestation that a confirmation was accepted with. */
  function AttestationFor(v: Confirmation.Verifier, a: Record, op: Op): Option<Confirmation.Attestation>
    requires op.Confirm?
  {
    Confirmation.VerifyAttestation(
      v, op.token,
      Confirmation.ExpectedConfirmation(a.ownerId, a.resolutionId, CancelSubscription, CancelActionDigest(a)),
      op.confirmedAt)
  }

  /** The lifecycle part of the row that an accepted save leaves. */
  function LifecycleAfter(v: Confirmation.Verifier, a: Record, op: Op): Record {
    match op
    case Confirm(_, confirmedAt, at) =>
      if AttestationFor(v, a, op).Some? then EnterExecution(a, AttestationFor(v, a, op).value, confirmedAt, at) else a
    case FirstClaim(answer, freshId, observedAt, at) => ClaimFirstCheck(a, ReceiptFor(answer, freshId), observedAt, at)
    case Recheck(at, _, _) => ClaimRecheck(a, at)
    case RecordCheck(_, _, _, _, _) => if a.claim.Some? then StoreAttempt(a, AttemptFor(a, op)) else a
    case _ => a
  }

  /** The state a save starts from. */
  predicate StartsFrom(v: Confirmation.Verifier, a: Record, op: Op) {
    match op
    case Confirm(_, _, _) => a.state == AWAITING_CONFIRMATION && AttestationFor(v, a, op).Some?
    case FirstClaim(_, _, _, _) => a.state == EXECUTING
    case Recheck(at, scheduledFor, force) => RecheckRefusal(a, at, scheduledFor, force).None?
    case RecordCheck(_, _, _, _, _) => a.state == VERIFYING && a.claim.Some?
    case _ => !IsTerminal(a.state)
  }

  lemma LifecycleOf(v: Confirmation.Verifier, a: Record, op: Op, b: Record)
    requires Advances(v, a, op, b)
    ensures StartsFrom(v, a, op)
    ensures SameLifecycle(LifecycleAfter(v, a, op), b)
    ensures !op.Observe? ==> b.violations == a.violations
    ensures b.updatedAt == op.at && b.version == a.version + 1
  {
    hide IsValid, RecordVerification, DecideRecovery, FinishRecovery, RecordViolation, RecheckRefusal;
    hide Confirmation.VerifyAttestation, CancelActionDigest, ReceiptFor, EvidenceFor, HasFreshIds, IsWritten;
    if IsMetadata(op) {
      MetadataFrame(v, a, op);
    } else if op.RecordCheck? {
      RecordCheckFrame(v, a, op);
    }
  }

  // ----- first consequences

  lemma StoringKeepsValidity(r: Record)
    requires IsValid(r)
    ensures IsValid(Stored(r))
  {
    hide VerifyCancellation, LastEntry, Attested, ViolationById, Confirmation.InExactWindow, IsWalk, IsBlank;
    hide HasValidAttempts, RecoveryActionDigest, DemoResourceIdentity, CancelActionDigest;
    var s := Stored(r);
    assert IsBound(s) by {
      assert forall i :: 0 <= i < |s.attention| ==> IsBoundEvent(r, s.attention[i]);
      assert forall i :: 0 <= i < |s.recoveries| ==> IsBoundRecovery(r, s.recoveries[i]);
      assert forall i :: 0 <= i < |s.violations| ==> IsBoundViolation(r, s.violations[i]);
    }
    assert CancelActionDigest(s) == CancelActionDigest(r) by {
      DigestIgnoresVersion(r);
    }
  }

  lemma DigestIgnoresVersion(r: Record)
    ensures CancelActionDigest(Stored(r)) == CancelActionDigest(r)
  {
  }

  lemma AdvanceKeepsIdentity(v: Confirmation.Verifier, a: Record, op: Op, b: Record)
    requires Advances(v, a, op, b)
    ensures IsValid(b) && b.version == a.version + 1
    ensures b.ownerId == a.ownerId && b.resolutionId == a.resolutionId
    ensures !IsTerminal(a.state)
  {
    hide IsValid, Outcome, HasFreshIds, IsWritten;
    StoringKeepsValidity(Outcome(v, op, a).value);
  }

  lemma NewRecordIsValid(r: Record)
    requires IsNewRecord(r)
    ensures IsValid(r) && r.version == 0 && r.state == AWAITING_CONFIRMATION && r.checkCount == 0 && |r.history| == 2
    ensures r.violations == [] && r.recoveries == [] && r.attention == [] && r.attempts == [] && r.contract.Some?
    ensures r.claim.None? && r.nextCheckAt.None?
  {
    hide IsValid;
  }

  lemma TraceRowsAreValid(v: Confirmation.Verifier, tr: Trace, i: nat)
    requires IsTrace(v, tr) && i < |tr.rows|
    ensures IsValid(tr.rows[i]) && tr.rows[i].version == i
    ensures tr.rows[i].ownerId == tr.rows[0].ownerId && tr.rows[i].resolutionId == tr.rows[0].resolutionId
    decreases i
  {
    hide IsValid, Advances, IsNewRecord, FollowsClaim;
    if i == 0 {
      NewRecordIsValid(tr.rows[0]);
    } else {
      TraceRowsAreValid(v, tr, i - 1);
      assert IsStep(v, tr, i - 1);
      AdvanceKeepsIdentity(v, tr.rows[i - 1], tr.ops[i - 1], tr.rows[i]);
    }
  }
}
