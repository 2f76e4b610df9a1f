/** The recovery protocol: which proposals exist, and which states they move through. */
module Recoveries {
  import opened Wrappers
  import opened Models
  import opened Outcomes
  import Confirmation
  import opened Records
  import opened Lifecycle
  import opened Contract
  import opened Traces
  import opened Counts

  predicate IsFollowup(a: RecoveryAction) {
    a.kind == PrepareSupportFollowup
  }

  /** A proposal is a refund draft for a charge, or a support follow-up for a deadline. */
  predicate HasKnownPurpose(a: RecoveryAction) {
    || (a.kind == PrepareRefundRequest && a.reason == OutcomeViolated)
    || (a.kind == PrepareSupportFollowup && (a.reason == DeadlinePassed || a.reason == DeadlineApproaching))
  }

  /** Where a follow-up may stand in a record of the given state. */
  predicate SuitsState(a: RecoveryAction, s: State) {
    IsFollowup(a) ==>
      && (a.state == Executing ==> s == AWAITING_PROOF)
      && (a.state == Verifying ==> !IsTerminal(s))
      && (a.state == Completed ==> s == VERIFIED)
  }

  predicate HasOrderlyRecoveries(r: Record) {
    && (forall i :: 0 <= i < |r.recoveries| ==> HasKnownPurpose(r.recoveries[i]))
    && (forall i :: 0 <= i < |r.recoveries| ==> SuitsState(r.recoveries[i], r.state))
    && (forall i :: 0 <= i < |r.recoveries| ==> r.recoveries[i].kind == PrepareRefundRequest ==> r.violations != [])
    && (forall i, j :: 0 <= i < j < |r.recoveries| ==>
          r.recoveries[i].reason != r.recoveries[j].reason && r.recoveries[i].recoveryId != r.recoveries[j].recoveryId)
  }

  /** The moves a stored recovery can make. */
  predicate CanMoveRecovery(from: RecoveryState, to: RecoveryState) {
    match from
    case AwaitingConfirmation => to == Declined || to == Expired || to == Executing
    case Executing => to == Verifying || to == Completed || to == Failed
    case Verifying => to == Completed || to == Failed
    case _ => false
  }

  /** The same proposal, in the same state or one move further. */
  predicate IsSuccessor(a: RecoveryAction, b: RecoveryAction) {
    && b.recoveryId == a.recoveryId && b.kind == a.kind && b.digest == a.digest && b.reason == a.reason
    && b.owner == a.owner && b.resolution == a.resolution && b.targetDigest == a.targetDigest
    && b.expiresAt == a.expiresAt
    && (b.state == a.state || CanMoveRecovery(a.state, b.state))
  }

  /** `b` holds the recoveries of `a`, each at most one move further, and perhaps new ones that await confirmation. */
  predicate RecoveriesAdvance(a: seq<RecoveryAction>, b: seq<RecoveryAction>) {
    && |a| <= |b|
    && (forall i :: 0 <= i < |a| ==> IsSuccessor(a[i], b[i]))
    && (forall i :: |a| <= i < |b| ==> b[i].state == AwaitingConfirmation)
  }

  // ----- each kind of save

  predicate ProposesFor(r: Record, reason: AttentionReason) {
    && (reason == OutcomeViolated ==> r.violations != [])
    && (reason == OutcomeViolated || reason == DeadlinePassed || reason == DeadlineApproaching)
  }

  lemma AttendingKeepsOrder(r: Record, key: Option<DedupeKey>, at: int, proposes: bool, supply: Supply)
    requires HasOrderlyRecoveries(r)
    requires key.Some? && proposes ==> ProposesFor(r, key.value.reason)
    requires IsFreshRecoveryId(r, supply.recoveryId)
    ensures HasOrderlyRecoveries(Attend(r, key, at, proposes, supply))
    ensures RecoveriesAdvance(r.recoveries, Attend(r, key, at, proposes, supply).recoveries)
    ensures forall i :: 0 <= i < |r.recoveries| ==> Attend(r, key, at, proposes, supply).recoveries[i] == r.recoveries[i]
  {
    hide RecoveryActionDigest, EventOf, JustifiesFollowup;
  }

  lemma SettlingKeepsOrder(a: Record, verdict: Verdict, at: int, b: Record)
    requires HasOrderlyRecoveries(a)
    requires a.state == VERIFYING && b.state == TerminalStateFor(verdict) && b.violations == a.violations
    requires b.recoveries == SettleAll(a.recoveries, verdict, at)
    ensures HasOrderlyRecoveries(b)
    ensures RecoveriesAdvance(a.recoveries, b.recoveries)
    ensures forall i :: 0 <= i < |a.recoveries| && a.recoveries[i].state == Executing ==> b.recoveries[i] == a.recoveries[i]
  {
    hide SettleAll;
    assert forall i :: 0 <= i < |b.recoveries| ==> b.recoveries[i] == Settle(a.recoveries[i], verdict, at);
  }

  lemma CheckKeepsOrder(v: Confirmation.Verifier, a: Record, op: Op, b: Record)
    requires HasOrderlyRecoveries(a)
    requires op.RecordCheck? && Outcome(v, op, a) == Ok(b)
    requires HasFreshIds(op, a)
    ensures HasOrderlyRecoveries(b)
    ensures RecoveriesAdvance(a.recoveries, b.recoveries)
    ensures forall i :: 0 <= i < |a.recoveries| && a.recoveries[i].state == Executing ==> b.recoveries[i] == a.recoveries[i]
  {
    hide EvidenceFor, Judge, Attend, SettleAll, HasOrderlyRecoveries;
    var stored := StoreAttempt(a, AttemptFor(a, op));
    var verdict := AttemptFor(a, op).result.verdict;
    var settled := stored.(recoveries := SettleAll(stored.recoveries, verdict, op.at));
    SettlingKeepsOrder(a, verdict, op.at, settled);
    var key := AttentionAfterCheck(settled, op.at);
    var proposes := && key.Some?
                    && (key.value.level == ACTION_NEEDED || key.value.level == URGENT)
                    && !IsTerminal(settled.state);
    assert IsFreshRecoveryId(settled, op.supply.recoveryId);
    AttendingKeepsOrder(settled, key, op.at, proposes, op.supply);
  }

  lemma ObservingKeepsOrder(v: Confirmation.Verifier, a: Record, op: Op, b: Record)
    requires HasOrderlyRecoveries(a)
    requires op.Observe? && Outcome(v, op, a) == Ok(b)
    requires HasFreshIds(op, a)
    ensures HasOrderlyRecoveries(b)
    ensures RecoveriesAdvance(a.recoveries, b.recoveries)
    ensures forall i :: 0 <= i < |a.recoveries| ==> b.recoveries[i] == a.recoveries[i]
  {
    hide Attend, IsAdmissibleViolation;
    var noted := a.(violations := a.violations + [op.violation]);
    var key := AttentionKey(a.contract.value, a.state == VERIFIED, a.state == NOT_COMPLETED, None, true, op.at);
    AttendingKeepsOrder(noted, key, op.at, true, op.supply);
  }

  lemma MovingKeepsOrder(a: Record, i: nat, moved: RecoveryAction, b: Record)
    requires HasOrderlyRecoveries(a) && i < |a.recoveries|
    requires IsSuccessor(a.recoveries[i], moved) && SuitsState(moved, a.state)
    requires b.recoveries == a.recoveries[i := moved] && b.state == a.state && b.violations == a.violations
    ensures HasOrderlyRecoveries(b)
    ensures RecoveriesAdvance(a.recoveries, b.recoveries)
  {
  }

  lemma DecidingKeepsOrder(v: Confirmation.Verifier, a: Record, op: Op, b: Record)
    requires HasOrderlyRecoveries(a)
    requires op.Decide? && Outcome(v, op, a) == Ok(b)
    ensures HasOrderlyRecoveries(b)
    ensures RecoveriesAdvance(a.recoveries, b.recoveries)
    ensures forall i :: 0 <= i < |a.recoveries| && a.recoveries[i].state == Executing ==> b.recoveries[i] == a.recoveries[i]
  {
    hide Confirmation.VerifyAttestation, RecoveryActionDigest, RecoveryIndex, HasOrderlyRecoveries, RecoveriesAdvance;
    var i := RecoveryIndex(a.recoveries, op.recoveryId);
    MovingKeepsOrder(a, i, b.recoveries[i], b);
  }

  lemma FinishingKeepsOrder(v: Confirmation.Verifier, a: Record, op: Op, b: Record)
    requires HasOrderlyRecoveries(a) && !IsTerminal(a.state)
    requires op.Finish? && Outcome(v, op, a) == Ok(b) && IsWritten(op, a)
    ensures HasOrderlyRecoveries(b)
    ensures RecoveriesAdvance(a.recoveries, b.recoveries)
    ensures forall i :: 0 <= i < |a.recoveries| && a.recoveries[i].recoveryId != op.asked.recoveryId ==>
                          b.recoveries[i] == a.recoveries[i]
  {
    hide RecoveryIndex, RecoveryReceiptFor, HasOrderlyRecoveries, RecoveriesAdvance, IsValidRecoveryReply;
    var i := RecoveryIndex(a.recoveries, op.asked.recoveryId);
    MovingKeepsOrder(a, i, b.recoveries[i], b);
  }

  /** No save disturbs a recovery that is executing, except the one that finishes it. */
  predicate LeavesExecuting(a: Record, op: Op, b: Record) {
    |a.recoveries| <= |b.recoveries|
    && forall i :: 0 <= i < |a.recoveries| && a.recoveries[i].state == Executing
                   && !(op.Finish? && op.asked.recoveryId == a.recoveries[i].recoveryId)
        ==> b.recoveries[i] == a.recoveries[i]
  }

  lemma RecoveriesKeepOrder(v: Confirmation.Verifier, a: Record, op: Op, b: Record)
    requires HasOrderlyRecoveries(a) && Advances(v, a, op, b)
    ensures HasOrderlyRecoveries(b)
    ensures RecoveriesAdvance(a.recoveries, b.recoveries)
    ensures LeavesExecuting(a, op, b)
  {
    hide IsValid, Outcome, HasOrderlyRecoveries, IsSuccessor, RecheckRefusal, IsWritten, HasFreshIds;
    var n := Outcome(v, op, a).value;
    match op {
      case RecordCheck(_, _, _, _, _) => CheckKeepsOrder(v, a, op, n);
      case Observe(_, _, _) => ObservingKeepsOrder(v, a, op, n);
      case Decide(_, _, _, _) => DecidingKeepsOrder(v, a, op, n);
      case Finish(_, _, _, _) => FinishingKeepsOrder(v, a, op, n);
      case _ => EnteringKeepsOrder(v, a, op, n);
    }
    StoredKeepsOrder(n);
  }

  lemma StoredKeepsOrder(n: Record)
    requires HasOrderlyRecoveries(n)
    ensures HasOrderlyRecoveries(Stored(n)) && Stored(n).recoveries == n.recoveries
  {
  }

  lemma EnteringKeepsOrder(v: Confirmation.Verifier, a: Record, op: Op, b: Record)
    requires HasOrderlyRecoveries(a)
    requires op.Confirm? || op.FirstClaim? || op.Recheck?
    requires Outcome(v, op, a) == Ok(b)
    ensures HasOrderlyRecoveries(b)
    ensures RecoveriesAdvance(a.recoveries, b.recoveries) && b.recoveries == a.recoveries
  {
    hide Confirmation.VerifyAttestation, CancelActionDigest, ReceiptFor;
  }

  /** Distinct reasons out of three: no resolution ever accumulates a fourth proposal. */
  lemma AtMostThreeProposals(r: Record)
    requires HasOrderlyRecoveries(r)
    ensures |r.recoveries| <= 3
  {
    var reasons := seq(|r.recoveries|, i requires 0 <= i < |r.recoveries| => r.recoveries[i].reason);
    DistinctElementsFit(reasons, {OutcomeViolated, DeadlinePassed, DeadlineApproaching});
  }
}
