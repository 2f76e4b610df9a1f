/**
  When a save over the very row it was built from is accepted. Without a conflicting writer the
  validator refuses a record that the service built for its clock readings only, or because charges
  share an identifier.
 */
module Saving {
  import opened Wrappers
  import opened Models
  import opened Outcomes
  import opened Verifier
  import Confirmation
  import opened Records
  import opened Lifecycle
  import opened Contract
  import opened Traces
  import opened Counting
  import opened Scheduling
  import opened Attempts
  import opened Recoveries
  import opened Attention
  import opened Invariants

  // ----- the condition

  /** A charge that a check at the given time can still rest on. */
  predicate IsRecentCharge(w: OutcomeViolation, at: int) {
    w.observedAt <= at && at - w.observedAt <= MAX_VIOLATION_AGE
  }

  /** The charge a check is judged by can be found again through its identifier, as recent as it was. */
  predicate IsTraceable(vs: seq<OutcomeViolation>, at: int) {
    var w := LatestViolation(vs, at);
    w.Some? ==>
      && w.value.violationId != ""
      && var found := ViolationById(vs, Some(w.value.violationId));
         found.Some? && (IsRecentCharge(found.value, at) <==> IsRecentCharge(w.value, at))
  }

  /** The parts of an attestation that the store checks and the verifier does not. */
  predicate IsStorable(a: Confirmation.Attestation, confirmedAt: int) {
    && !IsBlank(a.issuer) && |a.issuer| <= Confirmation.MAX_ISSUER_LENGTH
    && !IsBlank(a.attestationId)
    && Confirmation.InExactWindow(a.issuedAt, a.expiresAt, confirmedAt)
  }

  /** What a caller can check before the save: the clock did not run backwards, and the identifiers identify. */
  predicate IsTimely(v: Confirmation.Verifier, a: Record, op: Op)
    requires a.history != []
  {
    match op
    case Confirm(_, confirmedAt, at) =>
      && Last(a.history).at <= confirmedAt <= at
      && AttestationFor(v, a, op).Some? && IsStorable(AttestationFor(v, a, op).value, confirmedAt)
    case FirstClaim(_, _, observedAt, at) => Last(a.history).at <= observedAt <= at
    case RecordCheck(_, _, _, at, _) => Last(a.history).at <= at && IsTraceable(a.violations, at)
    case _ => Last(a.history).at <= op.at
  }

  // ----- clauses that every save keeps

  lemma EnteringIsValidHistory(a: Record, next: State, at: int, t: Transition, b: Record)
    requires HasValidHistory(a) && CanMove(a.state, next)
    requires t.state == next && t.at == at && t.contractVersion.None?
    requires b.history == a.history + [t] && b.state == next && b.updatedAt == at && b.createdAt == a.createdAt
    ensures HasValidHistory(b) <==> Last(a.history).at <= at
  {
    var n := |a.history|;
    assert forall i :: 0 <= i < n ==> b.history[i] == a.history[i];
    if HasValidHistory(b) {
      assert b.history[n - 1].at <= b.history[n].at;
    }
  }

  lemma BindingIsKept(a: Record, b: Record)
    requires IsBound(a)
    requires b.ownerId == a.ownerId && b.resolutionId == a.resolutionId && b.target == a.target
    requires b.contract == a.contract && b.resolutionType == a.resolutionType
    requires forall i :: 0 <= i < |b.attention| ==> b.attention[i] in a.attention || IsBoundEvent(a, b.attention[i])
    requires forall i :: 0 <= i < |b.recoveries| ==> b.recoveries[i] in a.recoveries || IsBoundRecovery(a, b.recoveries[i])
    requires forall i :: 0 <= i < |b.violations| ==> b.violations[i] in a.violations || IsBoundViolation(a, b.violations[i])
    ensures IsBound(b)
  {
    hide RecoveryActionDigest, DemoResourceIdentity;
    forall i | 0 <= i < |b.attention| ensures IsBoundEvent(b, b.attention[i]) {
      assert b.attention[i] in a.attention || IsBoundEvent(a, b.attention[i]);
    }
    forall i | 0 <= i < |b.recoveries| ensures IsBoundRecovery(b, b.recoveries[i]) {
      assert b.recoveries[i] in a.recoveries || IsBoundRecovery(a, b.recoveries[i]);
    }
    forall i | 0 <= i < |b.violations| ensures IsBoundViolation(b, b.violations[i]) {
      assert b.violations[i] in a.violations || IsBoundViolation(a, b.violations[i]);
    }
  }

  lemma ConfirmationIsKept(a: Record, b: Record)
    requires IsConfirmed(a)
    requires b.ownerId == a.ownerId && b.resolutionId == a.resolutionId && b.target == a.target
    requires b.intent == a.intent && b.providerMode == a.providerMode && b.confirmedAt == a.confirmedAt
    requires LastEntry(b.history, AWAITING_CONFIRMATION) == LastEntry(a.history, AWAITING_CONFIRMATION)
    requires LastEntry(b.history, EXECUTING) == LastEntry(a.history, EXECUTING)
    requires Attested(b.history) == Attested(a.history)
    ensures IsConfirmed(b)
  {
    hide Confirmation.InExactWindow, IsBlank, LastEntry, Attested;
  }

  lemma {:induction false} EntriesComeBeforeTheLast(h: seq<Transition>, s: State)
    requires IsWalk(h)
    ensures LastEntry(h, s).Some? ==> LastEntry(h, s).value <= Last(h).at
    decreases |h|
  {
    if |h| > 1 && Last(h).state != s {
      var shorter := h[..|h| - 1];
      assert IsWalk(shorter) by {
        assert forall i :: 0 <= i < |shorter| ==> shorter[i] == h[i];
      }
      EntriesComeBeforeTheLast(shorter, s);
      assert h[|h| - 2].at <= h[|h| - 1].at;
    }
  }

  // ----- confirm

  lemma ConfirmationIsValid(v: Confirmation.Verifier, a: Record, op: Op, b: Record)
    requires IsValid(a) && op.Confirm? && a.state == AWAITING_CONFIRMATION && AttestationFor(v, a, op).Some?
    requires b == EnterExecution(a, AttestationFor(v, a, op).value, op.confirmedAt, op.at)
    ensures IsValid(b) <==> IsTimely(v, a, op)
  {
    hide IsBound, HasValidHistory, HasValidAttempts, IsBlank, Confirmation.InExactWindow, RecoveryActionDigest;
    var att := AttestationFor(v, a, op).value;
    var t := Transition(EXECUTING, op.at, None, Some(att));
    AttestationFields(v, a, op);
    BindingIsKept(a, b);
    EnteringIsValidHistory(a, EXECUTING, op.at, t, b);
    HistoryPlusOne(a.history, t);
    HistoryEnds(a);
    assert Attested(b.history) == [t];
  }

  lemma HistoryEnds(a: Record)
    requires HasValidHistory(a)
    ensures a.history != [] && Last(a.history).state == a.state
    ensures LastEntry(a.history, a.state) == Some(Last(a.history).at)
  {
  }

  lemma AttestationFields(v: Confirmation.Verifier, a: Record, op: Op)
    requires op.Confirm? && AttestationFor(v, a, op).Some?
    ensures var att := AttestationFor(v, a, op).value;
            && att.version == Confirmation.ConfirmationV1
            && |att.attestationId| <= Confirmation.MAX_ATTESTATION_ID_LENGTH
            && IsHexDigest(att.actionDigest) && IsHexDigest(att.tokenDigest)
            && att.actionDigest == CancelActionDigest(a)
  {
    hide Confirmation.InWholeSecondWindow, IsBlank;
  }

  // ----- claims

  lemma FirstClaimIsValid(v: Confirmation.Verifier, a: Record, op: Op, b: Record)
    requires IsValid(a) && IsCounted(a) && op.FirstClaim? && a.state == EXECUTING
    requires b == ClaimFirstCheck(a, ReceiptFor(op.answer, op.freshId), op.observedAt, op.at)
    ensures IsValid(b) <==> IsTimely(v, a, op)
  {
    hide IsBound, HasValidHistory, IsBlank, Confirmation.InExactWindow, RecoveryActionDigest, ReceiptFor, IsConfirmed;
    hide LastEntry, Attested;
    var t := Transition(VERIFYING, op.at, None, None);
    BindingIsKept(a, b);
    EnteringIsValidHistory(a, VERIFYING, op.at, t, b);
    HistoryPlusOne(a.history, t);
    HistoryEnds(a);
    ConfirmationIsKept(a, b);
  }

  lemma RecheckIsValid(v: Confirmation.Verifier, a: Record, op: Op, b: Record)
    requires IsValid(a) && IsCounted(a) && op.Recheck? && a.checkCount < a.maxChecks
    requires a.state == AWAITING_PROOF || a.state == VERIFYING
    requires b == ClaimRecheck(a, op.at)
    ensures IsValid(b) <==> IsTimely(v, a, op)
  {
    hide IsBound, HasValidHistory, IsBlank, Confirmation.InExactWindow, RecoveryActionDigest, IsConfirmed;
    hide LastEntry, Attested, Recomputed;
    var t := Transition(VERIFYING, op.at, None, None);
    BindingIsKept(a, b);
    EnteringIsValidHistory(a, VERIFYING, op.at, t, b);
    HistoryPlusOne(a.history, t);
    WalkOf(a);
    EntriesComeBeforeTheLast(a.history, VERIFYING);
    ConfirmationIsKept(a, b);
  }

  lemma WalkOf(a: Record)
    requires HasValidHistory(a)
    ensures IsWalk(a.history) && Last(a.history).state == a.state
  {
  }

  // ----- the recorded check

  lemma NewAttemptIsValid(a: Record, x: Attempt)
    requires HasValidAttempts(a.attempts, a.checkCount) && IsScheduled(a) && a.state == VERIFYING && 0 < a.checkCount
    requires x.attemptId != "" && x.checkCount == a.checkCount && Last(a.history).at <= x.checkedAt
    requires forall i :: 0 <= i < |a.attempts| ==> a.attempts[i].attemptId != x.attemptId
    ensures HasValidAttempts(a.attempts + [x], a.checkCount)
  {
    hide IsWalk;
    var n := |a.attempts|;
    var s := a.attempts + [x];
    forall i, j | 0 <= i < j < |s|
      ensures s[i].attemptId != s[j].attemptId && s[i].checkCount < s[j].checkCount && s[i].checkedAt <= s[j].checkedAt
    {
      if j == n && i < n - 1 {
        assert a.attempts[i].checkedAt <= a.attempts[n - 1].checkedAt;
      }
    }
  }

  /** The charge found through its identifier leads to the same verdict exactly when it is as recent. */
  lemma RecomputingAgrees(a: Record, op: Op, b: Record)
    requires op.RecordCheck? && a.claim.Some? && IsBound(a) && HasTrackedViolations(a)
    requires b == StoreAttempt(a, AttemptFor(a, op))
    ensures Recomputed(b) == AttemptFor(a, op).result <==> IsTraceable(a.violations, op.at)
  {
    hide IsValidEvidence, IsAcceptedReceipt, EvidenceFor, RecoveryActionDigest, DemoResourceIdentity, IsBoundRecovery;
    var x := AttemptFor(a, op);
    var latest := LatestViolation(a.violations, op.at);
    assert Last(b.attempts) == x;
    if latest.Some? {
      var w := latest.value;
      ViolationIsCorrelated(a, w, op.attemptId, op.at);
      if w.violationId != "" {
        var found := ViolationById(a.violations, Some(w.violationId));
        var k :| 0 <= k < |a.violations| && a.violations[k] == w;
        ViolationIsCorrelated(a, found.value, op.attemptId, op.at);
      }
    }
  }

  lemma ViolationIsCorrelated(a: Record, w: OutcomeViolation, attemptId: string, at: int)
    requires IsBound(a) && HasTrackedViolations(a) && w in a.violations
    ensures IsCorrelatedViolation(w, ExpectationOf(a, attemptId, at)) <==> IsRecentCharge(w, at)
  {
    hide RecoveryActionDigest, DemoResourceIdentity;
    var k :| 0 <= k < |a.violations| && a.violations[k] == w;
    assert IsBoundViolation(a, a.violations[k]);
  }

  lemma VerdictShape(r: ActionReceipt, e: Evidence, tf: bool, w: Option<OutcomeViolation>, x: Expectation)
    ensures var s := VerifyCancellation(r, e, tf, w, x);
            s.receipt == r && s.evidence == e && s.consumer == ConsumerStateFor(s.verdict)
  {
  }

  lemma CheckIsValid(v: Confirmation.Verifier, a: Record, op: Op, b: Record)
    requires IsValid(a) && IsCounted(a) && IsScheduled(a) && HasTrackedViolations(a)
    requires op.RecordCheck? && a.state == VERIFYING && a.claim.Some? && HasFreshIds(op, a)
    requires b == StoreAttempt(a, AttemptFor(a, op))
    ensures IsValid(b) <==> IsTimely(v, a, op)
  {
    hide IsBound, HasValidHistory, IsBlank, Confirmation.InExactWindow, RecoveryActionDigest, IsConfirmed, HasTrackedViolations;
    hide LastEntry, Attested, Recomputed, AttemptFor, IsTraceable, VerifyCancellation, HasValidAttempts, IsScheduled;
    hide IsFreshRecoveryId, IsWalk;
    var x := AttemptFor(a, op);
    var t := Transition(TerminalStateFor(x.result.verdict), op.at, None, None);
    CheckedAttempt(a, op);
    BindingIsKept(a, b);
    EnteringIsValidHistory(a, t.state, op.at, t, b);
    HistoryPlusOne(a.history, t);
    WalkOf(a);
    EntriesComeBeforeTheLast(a.history, VERIFYING);
    ConfirmationIsKept(a, b);
    RecomputingAgrees(a, op, b);
    if Last(a.history).at <= op.at {
      NewAttemptIsValid(a, x);
    }
  }

  lemma CheckedAttempt(a: Record, op: Op)
    requires op.RecordCheck? && a.claim.Some? && HasFreshIds(op, a)
    ensures var x := AttemptFor(a, op);
            && x.checkedAt == op.at && x.checkCount == a.checkCount && x.attemptId == op.attemptId && x.attemptId != ""
            && x.result.receipt == a.claim.value && x.result.evidence == x.evidence
            && x.result.consumer == ConsumerStateFor(x.result.verdict)
  {
    hide VerifyCancellation;
    VerdictShape(a.claim.value, EvidenceFor(op.seen, a.target, op.attemptId), op.eligible && a.checkCount >= a.maxChecks,
                 LatestViolation(a.violations, op.at), ExpectationOf(a, op.attemptId, op.at));
  }

  // ----- events, proposals and moves stay bound

  predicate StaysBound(a: Record, b: Record) {
    && (forall i :: 0 <= i < |b.attention| ==> b.attention[i] in a.attention || IsBoundEvent(a, b.attention[i]))
    && (forall i :: 0 <= i < |b.recoveries| ==> b.recoveries[i] in a.recoveries || IsBoundRecovery(a, b.recoveries[i]))
    && (forall i :: 0 <= i < |b.violations| ==> b.violations[i] in a.violations || IsBoundViolation(a, b.violations[i]))
  }

  predicate SameIdentity(a: Record, b: Record) {
    && b.ownerId == a.ownerId && b.resolutionId == a.resolutionId && b.target == a.target
    && b.contract == a.contract && b.resolutionType == a.resolutionType
  }

  lemma ProposalIsBound(r: Record, reason: AttentionReason, recoveryId: string, now: int)
    ensures IsBoundRecovery(r, ProposalOf(r, reason, recoveryId, now))
  {
  }

  lemma CreatingStaysBound(r: Record, reason: AttentionReason, now: int, supply: Supply)
    ensures StaysBound(r, CreateRecoveryProposal(r, reason, now, supply))
  {
    hide ProposalOf, IsBoundRecovery, JustifiesFollowup, IsBoundEvent;
    ProposalIsBound(r, reason, supply.recoveryId, now);
  }

  lemma AttendingStaysBound(r: Record, key: Option<DedupeKey>, at: int, proposes: bool, supply: Supply)
    ensures StaysBound(r, Attend(r, key, at, proposes, supply))
  {
    hide CreateRecoveryProposal, RecoveryActionDigest;
    if key.Some? && !HasEvent(r, key.value) {
      var noted := r.(attention := r.attention + [EventOf(r, key.value, supply.eventId, at)]);
      AttendFrame(r, key, at, proposes, supply);
      CreatingLeavesEvents(noted, key.value.reason, at, supply);
      CreatingStaysBound(noted, key.value.reason, at, supply);
      forall i | 0 <= i < |CreateRecoveryProposal(noted, key.value.reason, at, supply).recoveries|
        ensures CreateRecoveryProposal(noted, key.value.reason, at, supply).recoveries[i] in r.recoveries
                || IsBoundRecovery(r, CreateRecoveryProposal(noted, key.value.reason, at, supply).recoveries[i])
      {
      }
    }
  }

  lemma CreatingLeavesEvents(r: Record, reason: AttentionReason, now: int, supply: Supply)
    ensures var s := CreateRecoveryProposal(r, reason, now, supply);
            s.attention == r.attention && s.violations == r.violations
  {
    hide ProposalOf;
  }

  lemma SettlingStaysBound(r: Record, actions: seq<RecoveryAction>, verdict: Verdict, at: int)
    requires forall i :: 0 <= i < |actions| ==> IsBoundRecovery(r, actions[i])
    ensures forall i :: 0 <= i < |actions| ==> IsBoundRecovery(r, SettleAll(actions, verdict, at)[i])
  {
    hide SettleAll;
    forall i | 0 <= i < |actions| ensures IsBoundRecovery(r, SettleAll(actions, verdict, at)[i]) {
      assert IsBoundRecovery(r, actions[i]);
      assert SettleAll(actions, verdict, at)[i] == Settle(actions[i], verdict, at);
    }
  }

  lemma MovingStaysBound(a: Record, i: nat, moved: RecoveryAction)
    requires IsBound(a) && i < |a.recoveries|
    requires moved == a.recoveries[i].(state := moved.state, marks := moved.marks, attestationId := moved.attestationId,
                                       receipt := moved.receipt)
    ensures IsBoundRecovery(a, moved)
  {
    hide DemoResourceIdentity;
    assert IsBoundRecovery(a, a.recoveries[i]);
  }

  lemma DecisionStaysBound(v: Confirmation.Verifier, a: Record, op: Op, b: Record)
    requires IsBound(a) && op.Decide? && Outcome(v, op, a) == Ok(b)
    ensures StaysBound(a, b)
  {
    hide Confirmation.VerifyAttestation, RecoveryActionDigest, RecoveryIndex, IsBound, IsBoundRecovery;
    var i := RecoveryIndex(a.recoveries, op.recoveryId);
    MovingStaysBound(a, i, b.recoveries[i]);
  }

  lemma FinishStaysBound(v: Confirmation.Verifier, a: Record, op: Op, b: Record)
    requires IsBound(a) && op.Finish? && Outcome(v, op, a) == Ok(b)
    ensures StaysBound(a, b)
  {
    hide RecoveryIndex, RecoveryReceiptFor, IsBound, IsBoundRecovery, RecoveryStateAfter;
    var i := RecoveryIndex(a.recoveries, op.asked.recoveryId);
    MovingStaysBound(a, i, b.recoveries[i]);
  }

  lemma ObservationStaysBound(v: Confirmation.Verifier, a: Record, op: Op, b: Record)
    requires op.Observe? && Outcome(v, op, a) == Ok(b)
    ensures StaysBound(a, b)
  {
    hide Attend, IsAdmissibleViolation, IsBoundRecovery;
    var noted := a.(violations := a.violations + [op.violation]);
    var key := AttentionKey(a.contract.value, a.state == VERIFIED, a.state == NOT_COMPLETED, None, true, op.at);
    AttendingStaysBound(noted, key, op.at, true, op.supply);
    AttendFrame(noted, key, op.at, true, op.supply);
    BoundAlike(noted, a, b);
  }

  lemma BoundAlike(a: Record, c: Record, b: Record)
    requires SameIdentity(a, c)
    requires forall i :: 0 <= i < |b.recoveries| ==> b.recoveries[i] in a.recoveries || IsBoundRecovery(a, b.recoveries[i])
    ensures forall i :: 0 <= i < |b.recoveries| ==> b.recoveries[i] in a.recoveries || IsBoundRecovery(c, b.recoveries[i])
  {
    hide RecoveryActionDigest;
  }

  // ----- saves that leave the lifecycle alone

  lemma FirstMatchStays(vs: seq<OutcomeViolation>, ws: seq<OutcomeViolation>, id: Option<string>)
    requires vs <= ws && ViolationById(vs, id).Some?
    ensures ViolationById(ws, id) == ViolationById(vs, id)
  {
    if Some(vs[0].violationId) != id {
      FirstMatchStays(vs[1..], ws[1..], id);
    }
  }

  lemma RecomputingIsKept(a: Record, b: Record)
    requires SameLifecycle(a, b) && a.violations <= b.violations && HasSoundAttempts(a)
    requires a.claim.Some? && a.evidence.Some?
    ensures Recomputed(b) == Recomputed(a)
  {
    hide VerifyCancellation, EndsWindow, Rejudged, IsValidEvidence, IsValidReceipt;
    if a.attempts != [] {
      var x := Last(a.attempts);
      assert IsJudgedSoundly(a, a.attempts[|a.attempts| - 1]);
      if x.violationId.Some? {
        var w :| w in a.violations && IsJudgedBy(a, x, w);
        FirstMatchStays(a.violations, b.violations, x.violationId);
      }
    }
  }

  lemma PhaseIsKept(a: Record, b: Record)
    requires SameLifecycle(a, b) && a.violations <= b.violations && HasSoundAttempts(a)
    requires HasValidPhase(a)
    ensures HasValidPhase(b)
  {
    hide LastEntry, Attested, Recomputed, IsConfirmed, HasSoundAttempts;
    if IsConfirmed(a) {
      ConfirmationIsKept(a, b);
    }
    if HasResult(a) {
      RecomputingIsKept(a, b);
    }
  }

  lemma MetadataIsValid(a: Record, at: int, b: Record)
    requires IsValid(a) && HasSoundAttempts(a) && a.violations <= b.violations
    requires SameLifecycle(a, b) && b.updatedAt == at && b.version == a.version
    requires StaysBound(a, b)
    ensures IsValid(b) <==> Last(a.history).at <= at
  {
    hide HasValidPhase, IsBound, HasSoundAttempts, IsBlank, HasValidAttempts, IsBoundRecovery, IsWalk;
    BindingIsKept(a, b);
    PhaseIsKept(a, b);
  }

  lemma SideListsDoNotMatter(a: Record, b: Record)
    requires SameLifecycle(a, b) && b.violations == a.violations && b.updatedAt == a.updatedAt && b.version == a.version
    requires IsBound(a) && IsBound(b)
    ensures IsValid(a) <==> IsValid(b)
  {
    hide IsBound, IsBlank, HasValidAttempts, IsWalk, LastEntry, Attested, Recomputed, IsConfirmed;
    if IsConfirmed(a) {
      ConfirmationIsKept(a, b);
    }
    if IsConfirmed(b) {
      ConfirmationIsKept(b, a);
    }
    if a.claim.Some? && a.evidence.Some? {
      RecomputedAlike(a, b);
    }
  }

  lemma RecomputedAlike(a: Record, b: Record)
    requires SameLifecycle(a, b) && b.violations == a.violations
    requires a.claim.Some? && a.evidence.Some?
    ensures Recomputed(b) == Recomputed(a)
  {
    hide VerifyCancellation, ViolationById;
  }

  lemma RecordedCheckIsBound(v: Confirmation.Verifier, a: Record, op: Op, b: Record)
    requires IsBound(a) && op.RecordCheck? && Outcome(v, op, a) == Ok(b)
    ensures IsBound(b) && IsBound(StoreAttempt(a, AttemptFor(a, op)))
  {
    hide EvidenceFor, Judge, Attend, IsBoundRecovery, SettleAll, AttentionKey, DemoResourceIdentity;
    var stored := StoreAttempt(a, AttemptFor(a, op));
    var verdict := AttemptFor(a, op).result.verdict;
    var settled := stored.(recoveries := SettleAll(stored.recoveries, verdict, op.at));
    SettlingStaysBound(a, a.recoveries, verdict, op.at);
    BindingIsKept(a, stored);
    BindingIsKept(a, settled);
    var key := AttentionAfterCheck(settled, op.at);
    var proposes := && key.Some?
                    && (key.value.level == ACTION_NEEDED || key.value.level == URGENT)
                    && !IsTerminal(settled.state);
    AttendingStaysBound(settled, key, op.at, proposes, op.supply);
    AttendFrame(settled, key, op.at, proposes, op.supply);
    BindingIsKept(settled, b);
  }

  // ----- the theorem

  lemma OutcomeIsValid(v: Confirmation.Verifier, a: Record, op: Op, b: Record)
    requires IsSound(a) && IsValid(a)
    requires Outcome(v, op, a) == Ok(b) && HasFreshIds(op, a)
    ensures IsValid(b) <==> IsTimely(v, a, op)
  {
    hide IsValid, IsCounted, IsScheduled, HasSoundAttempts, HasOrderlyRecoveries, HasDistinctAttention, HasTrackedViolations;
    hide HasFreshIds, IsChargeFreeWhenVerified;
    PartsOf(a);
    match op {
      case Confirm(_, _, _) => hide Confirmation.VerifyAttestation; ConfirmationIsValid(v, a, op, b);
      case FirstClaim(_, _, _, _) => FirstClaimIsValid(v, a, op, b);
      case Recheck(at, scheduledFor, force) =>
        hide HasRunningRecovery;
        RecheckIsValid(v, a, op, b);
      case RecordCheck(_, _, _, _, _) =>
        hide IsTimely, RecordVerification;
        var stored := StoreAttempt(a, AttemptFor(a, op));
        RecordCheckFrame(v, a, op);
        RecordedCheckIsBound(v, a, op, b);
        SideListsDoNotMatter(stored, b);
        CheckIsValid(v, a, op, stored);
      case Decide(_, _, _, _) =>
        hide Outcome;
        MetadataFrame(v, a, op);
        DecisionStaysBound(v, a, op, b);
        MetadataIsValid(a, op.at, b);
      case Finish(_, _, _, _) =>
        hide Outcome;
        MetadataFrame(v, a, op);
        FinishStaysBound(v, a, op, b);
        MetadataIsValid(a, op.at, b);
      case Observe(_, _, _) =>
        hide Outcome;
        MetadataFrame(v, a, op);
        ObservationAppends(v, a, op, b);
        ObservationStaysBound(v, a, op, b);
        MetadataIsValid(a, op.at, b);
    }
  }

  lemma PartsOf(a: Record)
    requires IsValid(a)
    ensures IsBound(a) && a.history != []
  {
  }

  lemma ObservationAppends(v: Confirmation.Verifier, a: Record, op: Op, b: Record)
    requires op.Observe? && Outcome(v, op, a) == Ok(b)
    ensures b.violations == a.violations + [op.violation]
  {
    hide Attend, IsAdmissibleViolation;
    var noted := a.(violations := a.violations + [op.violation]);
    var key := AttentionKey(a.contract.value, a.state == VERIFIED, a.state == NOT_COMPLETED, None, true, op.at);
    AttendFrame(noted, key, op.at, true, op.supply);
  }

  /**
    A record the service builds from a sound row, saved over that very row, is refused exactly when the
    row is terminal, when a clock reading precedes the last transition, when the attestation is one the
    store does not keep, or when a charge cannot be identified by its identifier.
   */
  lemma SavesFailOnlyForClocksAndIdentifiers(v: Confirmation.Verifier, a: Record, op: Op)
    requires IsSound(a) && IsValid(a)
    requires Outcome(v, op, a).Ok? && HasFreshIds(op, a)
    ensures a.history != []
    ensures Accepts(a, Outcome(v, op, a).value) <==> !IsTerminal(a.state) && IsTimely(v, a, op)
  {
    hide IsValid, IsTimely, IsSound, HasFreshIds;
    var b := Outcome(v, op, a).value;
    OutcomeIsValid(v, a, op, b);
    PartsOf(a);
    OutcomeFollowsRow(v, a, op, b);
  }

  /** The two records are of the same resolution, and the second is at most one transition ahead. */
  predicate FollowsRow(a: Record, b: Record) {
    && b.ownerId == a.ownerId && b.resolutionId == a.resolutionId && b.version == a.version
    && |b.history| >= 2
    && (|| (CanMove(a.state, b.state) && b.history[..|b.history| - 1] == a.history)
        || (b.state == a.state && b.history == a.history))
  }

  lemma EnteringFollows(a: Record, c: Record, next: State, at: int, attestation: Option<Confirmation.Attestation>)
    requires c.ownerId == a.ownerId && c.resolutionId == a.resolutionId && c.version == a.version
    requires c.history == a.history && |a.history| >= 2 && CanMove(a.state, next)
    ensures FollowsRow(a, Enter(c, next, at, attestation))
  {
    var b := Enter(c, next, at, attestation);
    assert b.history[..|b.history| - 1] == a.history;
  }

  lemma OutcomeFollowsRow(v: Confirmation.Verifier, a: Record, op: Op, b: Record)
    requires IsValid(a) && Outcome(v, op, a) == Ok(b)
    ensures FollowsRow(a, b)
  {
    hide IsValid, RecordVerification, HasRunningRecovery, Confirmation.VerifyAttestation, ReceiptFor, EvidenceFor;
    hide CancelActionDigest, Enter, FollowsRow;
    HistoryIsLong(a);
    match op {
      case Confirm(_, confirmedAt, at) =>
        EnteringFollows(a, a.(confirmedAt := Some(confirmedAt)), EXECUTING, at, AttestationFor(v, a, op));
      case FirstClaim(answer, freshId, observedAt, at) =>
        EnteringFollows(a, a.(claim := Some(ReceiptFor(answer, freshId)), claimObservedAt := Some(observedAt),
                              checkCount := a.checkCount + 1), VERIFYING, at, None);
      case Recheck(at, _, _) =>
        EnteringFollows(a, a.(checkCount := a.checkCount + 1, nextCheckAt := None, evidence := None,
                              evidenceObservedAt := None, verification := None, verifiedAt := None), VERIFYING, at, None);
        EnteringFollows(a, a.(checkCount := a.checkCount + 1), VERIFYING, at, None);
      case RecordCheck(_, _, _, _, _) => CheckFollows(v, a, op, b);
      case _ =>
        hide Outcome;
        MetadataFrame(v, a, op);
        MetadataFollows(a, b);
    }
  }

  lemma MetadataFollows(a: Record, b: Record)
    requires SameLifecycle(a, b) && b.version == a.version && |a.history| >= 2
    ensures FollowsRow(a, b)
  {
  }

  lemma CheckFollows(v: Confirmation.Verifier, a: Record, op: Op, b: Record)
    requires op.RecordCheck? && Outcome(v, op, a) == Ok(b) && |a.history| >= 2
    ensures FollowsRow(a, b)
  {
    hide RecordVerification, AttemptFor;
    RecordCheckFrame(v, a, op);
    assert b.history[..|b.history| - 1] == a.history;
  }

  lemma HistoryIsLong(a: Record)
    requires IsValid(a)
    ensures |a.history| >= 2
  {
    hide IsBlank, HasValidAttempts, IsBound, HasValidSchedule;
    assert |a.history| == 1 ==> a.state == REQUESTED;
  }

  /** Charges with distinct, nonempty identifiers can always be identified. */
  lemma DistinctIdentifiersSuffice(vs: seq<OutcomeViolation>, at: int)
    requires forall i :: 0 <= i < |vs| ==> vs[i].violationId != ""
    requires forall i, j :: 0 <= i < j < |vs| ==> vs[i].violationId != vs[j].violationId
    ensures IsTraceable(vs, at)
  {
    var w := LatestViolation(vs, at);
    if w.Some? {
      var k :| 0 <= k < |vs| && vs[k] == w.value;
      var found := ViolationById(vs, Some(w.value.violationId));
      if found.Some? {
        var m :| 0 <= m < |vs| && vs[m] == found.value;
      }
    }
  }
}
