/** What holds of every row that any trace stores. */
module Invariants {
  import opened Wrappers
  import opened Models
  import opened Outcomes
  import opened Verifier
  import Confirmation
  import opened Records
  import opened Lifecycle
  import opened Contract
  import opened Traces
  import opened Counting
  import opened Scheduling
  import opened Attempts
  import opened Recoveries
  import opened Attention

  /** A stored violation passed the checks of record_outcome_violation. */
  predicate IsTrackedViolation(contract: OutcomeContract, w: OutcomeViolation) {
    && contract.prohibitsRenewalCharge
    && w.eventType == RenewalCharge && w.amountCents > 0 && IsKnownCurrency(w.currency)
    && w.source == DemoBillingReadback
    && w.evidenceId != ""
    && contract.deadlineAt.Some? && contract.deadlineAt.value <= w.observedAt
  }

  predicate HasTrackedViolations(r: Record) {
    && r.contract.Some?
    && forall i :: 0 <= i < |r.violations| ==> IsTrackedViolation(r.contract.value, r.violations[i])
  }

  /** No charge known to a VERIFIED record was observed by the time of its check. */
  predicate IsChargeFreeWhenVerified(r: Record) {
    r.state == VERIFIED ==>
      r.verifiedAt.Some? && forall i :: 0 <= i < |r.violations| ==> r.verifiedAt.value < r.violations[i].observedAt
  }

  /** Everything the saves keep beyond what the validator checks. */
  ghost predicate IsSound(r: Record) {
    && IsCounted(r)
    && IsScheduled(r)
    && HasSoundAttempts(r)
    && HasOrderlyRecoveries(r)
    && HasDistinctAttention(r)
    && HasTrackedViolations(r)
    && IsChargeFreeWhenVerified(r)
  }

  lemma ViolationsGrow(v: Confirmation.Verifier, a: Record, op: Op, b: Record)
    requires HasTrackedViolations(a) && Advances(v, a, op, b)
    ensures HasTrackedViolations(b) && a.violations <= b.violations && b.contract == a.contract
  {
    hide IsValid, RecordVerification, RecheckRefusal, HasFreshIds, IsWritten, Attend;
    LifecycleOf(v, a, op, b);
    if op.Observe? {
      var noted := a.(violations := a.violations + [op.violation]);
      var key := AttentionKey(a.contract.value, a.state == VERIFIED, a.state == NOT_COMPLETED, None, true, op.at);
      AttendFrame(noted, key, op.at, true, op.supply);
    } else {
      hide Outcome;
    }
  }

  lemma ChargesKeepVerifiedAway(v: Confirmation.Verifier, a: Record, op: Op, b: Record)
    requires StartsFrom(v, a, op) && SameLifecycle(LifecycleAfter(v, a, op), b)
    requires !IsTerminal(a.state) && (op.RecordCheck? ==> b.violations == a.violations)
    ensures IsChargeFreeWhenVerified(b)
  {
    hide Confirmation.VerifyAttestation, CancelActionDigest, ReceiptFor, EvidenceFor, RecheckRefusal;
    if op.RecordCheck? {
      var x := AttemptFor(a, op);
      if x.result.verdict == PASS {
        PassExactlyForProof(a.claim.value, x.evidence, x.eligible && a.checkCount >= a.maxChecks,
                            LatestViolation(a.violations, op.at), ExpectationOf(a, op.attemptId, op.at));
      }
    }
  }

  lemma SoundnessIsKept(v: Confirmation.Verifier, a: Record, op: Op, b: Record)
    requires IsSound(a) && IsValid(a) && Advances(v, a, op, b)
    requires op.RecordCheck? && op.eligible ==> MayEndWindow(a, op.at)
    ensures IsSound(b)
  {
    hide IsCounted, IsScheduled, HasSoundAttempts, HasOrderlyRecoveries, HasDistinctAttention, HasTrackedViolations;
    hide IsChargeFreeWhenVerified, Outcome, StartsFrom, LifecycleAfter, IsWritten, HasValidPhase, HasValidSchedule;
    LifecycleOf(v, a, op, b);
    AdvanceKeepsIdentity(v, a, op, b);
    CountingIsKept(v, a, op, b);
    SchedulingIsKept(v, a, op, b);
    ViolationsGrow(v, a, op, b);
    AttemptsStaySound(v, a, op, b);
    RecoveriesKeepOrder(v, a, op, b);
    ContractIsTracked(a);
    AttentionStaysDistinct(v, a, op, b);
    ChargesKeepVerifiedAway(v, a, op, b);
  }

  lemma ContractIsTracked(a: Record)
    requires HasTrackedViolations(a)
    ensures a.contract.Some?
  {
  }

  lemma NewRecordIsSound(r: Record)
    requires IsNewRecord(r)
    ensures IsSound(r)
  {
    hide IsValid;
    NewIsCounted(r);
  }

  lemma TraceRowsAreSound(v: Confirmation.Verifier, tr: Trace, i: nat)
    requires IsTrace(v, tr) && i < |tr.rows|
    ensures IsSound(tr.rows[i])
    decreases i
  {
    hide IsValid, Advances, IsNewRecord, FollowsClaim, IsSound;
    if i == 0 {
      NewRecordIsSound(tr.rows[0]);
    } else {
      TraceRowsAreSound(v, tr, i - 1);
      TraceRowsAreValid(v, tr, i - 1);
      assert IsStep(v, tr, i - 1);
      if tr.ops[i - 1].RecordCheck? {
        TraceRowsAreSound(v, tr, i - 2);
        EligibleStep(v, tr, i - 1);
      }
      SoundnessIsKept(v, tr.rows[i - 1], tr.ops[i - 1], tr.rows[i]);
    }
  }

  /** In a trace, the row a read-back is recorded into was left by the claim of that read-back. */
  lemma EligibleStep(v: Confirmation.Verifier, tr: Trace, i: nat)
    requires IsTrace(v, tr) && i < |tr.ops| && tr.ops[i].RecordCheck?
    requires 1 <= i && IsSound(tr.rows[i - 1])
    ensures tr.rows[i].history != []
    ensures tr.ops[i].eligible ==> MayEndWindow(tr.rows[i], tr.ops[i].at)
    ensures tr.ops[i - 1].Recheck? ==> tr.ops[i].at == Last(tr.rows[i].history).at
  {
    hide IsValid, Advances, IsNewRecord, Outcome, StartsFrom, LifecycleAfter, MayEndWindow, IsTerminalFailureEligible;
    hide IsCounted, HasSoundAttempts, HasOrderlyRecoveries, HasDistinctAttention, HasTrackedViolations;
    assert IsStep(v, tr, i);
    assert IsStep(v, tr, i - 1);
    LifecycleOf(v, tr.rows[i - 1], tr.ops[i - 1], tr.rows[i]);
    SchedulingIsKeptByAdvance(v, tr.rows[i - 1], tr.ops[i - 1], tr.rows[i]);
    EligibleChecksMayEndWindow(v, tr.rows[i - 1], tr.ops[i - 1], tr.rows[i], tr.ops[i]);
  }

  lemma SchedulingIsKeptByAdvance(v: Confirmation.Verifier, a: Record, op: Op, b: Record)
    requires IsScheduled(a) && Advances(v, a, op, b)
    ensures IsScheduled(b)
  {
    hide IsScheduled, Outcome, StartsFrom, LifecycleAfter, IsWritten, HasFreshIds, HasValidPhase, HasValidSchedule;
    LifecycleOf(v, a, op, b);
    AdvanceKeepsIdentity(v, a, op, b);
    SchedulingIsKept(v, a, op, b);
  }
}
